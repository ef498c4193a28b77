/**
 The target is hit: right after an order is stored the effective position is what the
 engine aimed at, less what was written off meanwhile. Before settlement that is at most
 one dust write-off, and the position stays there.
 */
module WorldTarget {
  import opened Desk
  import opened Domain
  import opened Engine
  import opened Ledger
  import opened Manager
  import opened MockStore
  import opened Orders
  import opened Positions
  import opened Rounding
  import opened Seqs
  import opened World
  import opened WorldKeepsLinks
  import opened WorldLinks
  import opened WorldSafety
  import opened WorldTrades

  function Effective(s: State, token: TokenId): Micro {
    BuildPosition(s, token).EffectiveShares()
  }

  /** The effective position is `offset` short of `goal`, less what has been written off since `mark`. */
  ghost predicate OnCourse(d: Desk, token: TokenId, offset: Micro, goal: Micro, mark: Micro) {
    Effective(d.mgr, token) + offset == goal - (Dropped(d.postings, token) - mark)
  }

  /** At most one dust write-off since `mark`, and one that left no claim. */
  ghost predicate OnlyDust(d: Desk, token: TokenId, mark: Micro) {
    var drift := Dropped(d.postings, token) - mark;
    0 <= drift <= DUST && (drift > 0 ==> Claim(d.mgr, token) == 0)
  }

  ghost predicate Tracking(d: Desk, token: TokenId, offset: Micro, goal: Micro, mark: Micro) {
    OnCourse(d, token, offset, goal, mark) && OnlyDust(d, token, mark)
  }

  function Offset(c: EngineStage): Micro
    requires c.Creating?
  {
    if c.side == Buy then c.shares else -c.shares
  }

  /** While an order is being created nothing else of its token is pending, and it is on course. */
  ghost predicate Heading(d: Desk) {
    d.engine.Creating? ==>
      NothingPending(d.mgr.orders, d.engine.token.id)
      && OnCourse(d, d.engine.token.id, Offset(d.engine), d.engine.goal, d.engine.mark)
  }

  /** Before settlement it is off by dust at most, and a sell not at all. */
  ghost predicate Aiming(d: Desk) {
    d.engine.Creating? && !d.closed ==>
      OnlyDust(d, d.engine.token.id, d.engine.mark)
      && (d.engine.side == Sell ==> Dropped(d.postings, d.engine.token.id) == d.engine.mark)
  }

  /** Balanced books give the effective position by stakes, write-offs and payouts. */
  lemma EffectiveOf(d: Desk, token: TokenId)
    requires InBooks(d)
    ensures Effective(d.mgr, token) == Stake(d.mgr, token, Buy) - Stake(d.mgr, token, Sell)
                                     - Dropped(d.postings, token) - Replay(d.postings, token).books.paid
  {
    EffectiveClosedForm(d.mgr, d.postings, token);
  }

  /** Equal stakes and postings keep the course. */
  lemma CourseByStakes(w: World, after: World, token: TokenId, offset: Micro, offset': Micro, goal: Micro, mark: Micro)
    requires Coherent(w) && Coherent(after) && OnCourse(w.desk, token, offset, goal, mark)
    requires after.desk.postings == w.desk.postings
    requires Stake(after.desk.mgr, token, Buy) - Stake(after.desk.mgr, token, Sell) + offset'
          == Stake(w.desk.mgr, token, Buy) - Stake(w.desk.mgr, token, Sell) + offset
    ensures OnCourse(after.desk, token, offset', goal, mark)
  {
    EffectiveOf(w.desk, token);
    EffectiveOf(after.desk, token);
  }

  /** After a dust write-off no claim comes up as long as no sell is added. */
  lemma DustByStakes(w: World, after: World, token: TokenId, mark: Micro)
    requires Coherent(w) && Coherent(after) && OnlyDust(w.desk, token, mark)
    requires after.desk.postings == w.desk.postings
    requires Dropped(w.desk.postings, token) > mark ==> Stake(after.desk.mgr, token, Sell) <= Stake(w.desk.mgr, token, Sell)
    ensures OnlyDust(after.desk, token, mark)
  {
    ClaimByStake(w.desk, token);
    ClaimByStake(after.desk, token);
    ClaimGap(after, token);
  }

  /** Handling a trade event moves the effective position by what it writes off, before or after settlement. */
  lemma TradeTakenOnCourse(w: World, token: TokenId, offset: Micro, goal: Micro, mark: Micro)
    requires Possible(w, TradeTaken) && Coherent(w) && Coherent(Advance(w, TradeTaken))
    requires OnCourse(w.desk, token, offset, goal, mark)
    ensures OnCourse(NextDesk(w, TradeTaken), token, offset, goal, mark)
  {
    hide Protocol, EngineOk, InBooks, Links, LogOk, Deliveries, Stake, Post, Replay, Effective, Claim, Accepts;
    var d, d' := w.desk, NextDesk(w, TradeTaken);
    TradeTakenBooks(w, token);
    EffectiveOf(d, token);
    EffectiveOf(d', token);
    var e := w.tradeQueue.items[0];
    if e.status == Mined && e.tokenId == token {
      FillMoves(Replay(d.postings, token), PostingFor(d.mgr, e));
    }
  }

  /** Before settlement at most one write-off can happen, and none while a sell is being created. */
  lemma TradeTakenOnlyDust(w: World, token: TokenId, mark: Micro)
    requires Possible(w, TradeTaken) && Coherent(w) && Coherent(Advance(w, TradeTaken))
    requires NoOversell(w.desk) && !w.desk.closed && OnlyDust(w.desk, token, mark)
    ensures OnlyDust(NextDesk(w, TradeTaken), token, mark)
    ensures Reserve(w.desk.engine, token) > 0 ==>
              Dropped(NextDesk(w, TradeTaken).postings, token) == Dropped(w.desk.postings, token)
  {
    hide Coherent, Replay, Claim, Accepts, NextPostings, NextManager;
    TradeTakenCovers(w, token);
  }

  // ----------------------------------------------------------------- aiming

  /** Deciding to place an order fixes its goal; no order of the token has pending shares. */
  lemma ObserveAims(w: World, m: Move)
    requires Possible(w, m) && Coherent(w) && m.Internal? && m.action.Observe?
    requires NextEngine(w.desk, m.action).Creating?
    ensures var c, token := NextEngine(w.desk, m.action), m.action.desired.token.id;
            var now := BuildPosition(w.desk.mgr, token);
            && c.token.id == token && NothingPending(w.desk.mgr.orders, token)
            && OnCourse(w.desk, token, Offset(c), c.goal, c.mark) && c.mark == Dropped(w.desk.postings, token)
            && c.goal == (if c.side == Buy then m.action.desired.Target()
                          else Max(m.action.desired.Target(), now.EffectiveShares() - now.SellableShares()))
  {
    PlacesTowardsTarget(w.desk.mgr, m.action.desired, m.action.aged);
    forall i | 0 <= i < |w.desk.mgr.orders| && w.desk.mgr.orders[i].token.id == m.action.desired.token.id
      ensures w.desk.mgr.orders[i].pending == 0
    {
      assert Linked(w.desk.market, w.store, w.desk.mgr.orders[i]);
    }
  }

  lemma HeadedOrderMove(w: World, m: Move)
    requires Possible(w, m) && Coherent(w) && Coherent(Advance(w, m)) && OrderStepMove(w, m)
    requires Heading(w.desk) && w.desk.engine.Creating? && NextDesk(w, m).engine == w.desk.engine
    ensures Heading(NextDesk(w, m))
    ensures var token := w.desk.engine.token.id; Stake(NextDesk(w, m).mgr, token, Sell) == Stake(w.desk.mgr, token, Sell)
  {
    var c := w.desk.engine;
    OrderMoveKeepsRest(w, m);
    OrderMoveStakes(w, m, c.token.id, Buy);
    OrderMoveStakes(w, m, c.token.id, Sell);
    CourseByStakes(w, Advance(w, m), c.token.id, Offset(c), Offset(c), c.goal, c.mark);
  }

  lemma AimedOrderMove(w: World, m: Move)
    requires Possible(w, m) && Coherent(w) && Coherent(Advance(w, m)) && OrderStepMove(w, m)
    requires Heading(w.desk) && Aiming(w.desk) && w.desk.engine.Creating? && NextDesk(w, m).engine == w.desk.engine
    ensures Heading(NextDesk(w, m)) && Aiming(NextDesk(w, m))
  {
    hide Coherent, Heading, OnlyDust, Stake;
    var c := w.desk.engine;
    HeadedOrderMove(w, m);
    OrderMoveKeepsRest(w, m);
    if !w.desk.closed { DustByStakes(w, Advance(w, m), c.token.id, c.mark); }
  }

  lemma AimedTradeMove(w: World)
    requires Possible(w, TradeTaken) && Coherent(w) && Coherent(Advance(w, TradeTaken)) && NoOversell(w.desk)
    requires Heading(w.desk) && Aiming(w.desk) && w.desk.engine.Creating?
    ensures Heading(NextDesk(w, TradeTaken)) && Aiming(NextDesk(w, TradeTaken))
  {
    hide Protocol, InBooks, Links, LogOk, Deliveries, OnCourse, OnlyDust, NoOversell, HandleTradeEvent;
    var c, d' := w.desk.engine, NextDesk(w, TradeTaken);
    TradeTakenOnCourse(w, c.token.id, Offset(c), c.goal, c.mark);
    if !w.desk.closed { TradeTakenOnlyDust(w, c.token.id, c.mark); }
    TradeKeepsOrders(w.desk.mgr, w.tradeQueue.items[0]);
    assert NothingPending(d'.mgr.orders, c.token.id);
  }

  /** While the engine awaits the client only the client's answer moves it on. */
  lemma EngineWaits(d: Desk, a: Action)
    requires Enabled(d, a) && d.engine.Creating? && !a.CreateFails? && !a.CreateReturns?
    ensures NextEngine(d, a) == d.engine && !a.Observe? && !a.Settles?
  {
  }

  lemma EngineStartsCreating(d: Desk, a: Action)
    requires Enabled(d, a) && !d.engine.Creating? && NextEngine(d, a).Creating?
    ensures a.Observe? && NextManager(d, a) == d.mgr && NextPostings(d, a) == d.postings
  {
  }

  lemma DecidedAims(w: World, m: Move)
    requires Possible(w, m) && Coherent(w) && m.Internal? && m.action.Observe?
    requires NextEngine(w.desk, m.action).Creating?
    ensures Heading(NextDesk(w, m)) && Aiming(NextDesk(w, m))
  {
    hide Coherent, NextEngine, Effective, DecideOn, BuildPosition;
    ObserveAims(w, m);
  }

  lemma NotCreating(d: Desk)
    requires !d.engine.Creating?
    ensures Heading(d) && Aiming(d)
  {
  }

  lemma MoveKeepsAiming(w: World, m: Move)
    requires Possible(w, m) && Coherent(w) && NoOversell(w.desk) && Heading(w.desk) && Aiming(w.desk)
    ensures Heading(Advance(w, m).desk) && Aiming(Advance(w, m).desk)
  {
    hide Coherent, NoOversell, Heading, Aiming;
    MoveKeepsCoherent(w, m);
    if DeskAction(w, m).Some? {
      var a := DeskAction(w, m).value;
      if NextDesk(w, m).engine.Creating? {
        if w.desk.engine.Creating? {
          EngineWaits(w.desk, a);
          if m == TradeTaken { AimedTradeMove(w); } else { AimedOrderMove(w, m); }
        } else {
          EngineStartsCreating(w.desk, a);
          DecidedAims(w, m);
        }
      } else {
        NotCreating(NextDesk(w, m));
      }
    }
  }

  lemma {:induction false} AimingReached(ws: seq<World>, ms: seq<Move>, k: nat)
    requires History(ws, ms) && k < |ws|
    ensures Heading(ws[k].desk) && Aiming(ws[k].desk)
  {
    hide Coherent, NoOversell, Possible, Advance;
    if k > 0 {
      AimingReached(ws, ms, k - 1);
      CoherentReached(ws, ms, k - 1);
      NeverOversold(ws, ms, k - 1);
      MoveKeepsAiming(ws[k - 1], ms[k - 1]);
    }
  }

  lemma StageKept(w: World, m: Move)
    requires Possible(w, m) && w.desk.engine.Creating? && NextDesk(w, m).engine.Creating?
    ensures NextDesk(w, m).engine == w.desk.engine
  {
    if DeskAction(w, m).Some? { EngineWaits(w.desk, DeskAction(w, m).value); }
  }

  /** The engine's stage is unchanged while it creates an order. */
  lemma {:induction false} StageHeld(ws: seq<World>, ms: seq<Move>, j: nat, k: nat)
    requires History(ws, ms) && j < k < |ws|
    requires forall n :: j < n <= k ==> ws[n].desk.engine.Creating?
    ensures ws[k].desk.engine == ws[j + 1].desk.engine
    decreases k
  {
    if j + 1 < k {
      StageHeld(ws, ms, j, k - 1);
      var w, m := ws[k - 1], ms[k - 1];
      assert Possible(w, m) && ws[k] == Advance(w, m);
      StageKept(w, m);
    }
  }

  ghost predicate Places(m: Move, token: TokenId) {
    m.Internal? && m.action.Observe? && m.action.desired.token.id == token
  }

  /** Storing the order makes up the difference. */
  lemma CreateHits(w: World, m: Move)
    requires Possible(w, m) && Coherent(w) && Coherent(Advance(w, m)) && Heading(w.desk)
    requires m.Internal? && m.action.CreateReturns?
    ensures var c := w.desk.engine;
            && OnCourse(NextDesk(w, m), c.token.id, 0, c.goal, c.mark)
            && NextDesk(w, m).postings == w.desk.postings
  {
    hide Protocol, EngineOk, InBooks, Links, LogOk, Deliveries, Stake, Replay;
    var c := w.desk.engine;
    CreateStakes(w.desk, m.action, c.token.id, Buy);
    CreateStakes(w.desk, m.action, c.token.id, Sell);
    CourseByStakes(w, Advance(w, m), c.token.id, Offset(c), 0, c.goal, c.mark);
  }

  /** And before settlement it is still off by dust at most. */
  lemma CreateTracks(w: World, m: Move)
    requires Possible(w, m) && Coherent(w) && Coherent(Advance(w, m)) && Heading(w.desk) && Aiming(w.desk)
    requires m.Internal? && m.action.CreateReturns? && !w.desk.closed
    ensures var c := w.desk.engine; Tracking(NextDesk(w, m), c.token.id, 0, c.goal, c.mark)
  {
    hide Protocol, EngineOk, InBooks, Links, LogOk, Deliveries, Stake, Replay, OnCourse, Heading;
    var c := w.desk.engine;
    CreateHits(w, m);
    CreateStakes(w.desk, m.action, c.token.id, Sell);
    if c.side == Buy { DustByStakes(w, Advance(w, m), c.token.id, c.mark); }
  }

  /** An order of this token is decided on at `j` and stored at `k`, with anything else in between. */
  ghost predicate PlacedAndStored(ws: seq<World>, ms: seq<Move>, j: nat, k: nat, token: TokenId) {
    && History(ws, ms) && j < k < |ms|
    && Places(ms[j], token) && ms[k].Internal? && ms[k].action.CreateReturns?
    && forall n :: j < n <= k ==> ws[n].desk.engine.Creating?
  }

  /** Shares of the token written off between two states. */
  function WrittenOff(from: World, to: World, token: TokenId): Micro {
    Dropped(to.desk.postings, token) - Dropped(from.desk.postings, token)
  }

  /**
   From the decision at `j` to the order stored at `k`, whatever happens in between and
   whether or not the market has been settled: the effective position right after is the
   target, or for a sell the target as far as unclaimed shares allow, less exactly what was
   written off in between. So it is hit if and only if nothing was.
   */
  lemma TargetHit(ws: seq<World>, ms: seq<Move>, j: nat, k: nat, token: TokenId)
    requires PlacedAndStored(ws, ms, j, k, token)
    ensures var target, seen := ms[j].action.desired.Target(), BuildPosition(ws[j].desk.mgr, token);
            var goal := if ws[k].desk.engine.side == Buy then target
                        else Max(target, seen.EffectiveShares() - seen.SellableShares());
            Effective(ws[k + 1].desk.mgr, token) == goal - WrittenOff(ws[j], ws[k], token)
  {
    hide Coherent, BuildPosition, Aiming, NextManager, NextEngine;
    CoherentReached(ws, ms, j);
    CoherentReached(ws, ms, k);
    CoherentReached(ws, ms, k + 1);
    AimingReached(ws, ms, k);
    StageHeld(ws, ms, j, k);
    ObserveAims(ws[j], ms[j]);
    CreateHits(ws[k], ms[k]);
  }

  /** Before settlement that is dust at most for a buy, and nothing for a sell. */
  lemma WrittenOffBeforeSettlement(ws: seq<World>, ms: seq<Move>, j: nat, k: nat, token: TokenId)
    requires PlacedAndStored(ws, ms, j, k, token) && !ws[k].desk.closed
    ensures 0 <= WrittenOff(ws[j], ws[k], token) <= if ws[k].desk.engine.side == Buy then DUST else 0
  {
    hide Coherent, BuildPosition, Heading, NextManager, NextEngine;
    CoherentReached(ws, ms, j);
    AimingReached(ws, ms, k);
    StageHeld(ws, ms, j, k);
    ObserveAims(ws[j], ms[j]);
  }

  // ----------------------------------------------------------- staying on target

  /** No cancel of a pending order of the token is requested, under way or done. */
  ghost predicate QuietOrder(w: World, o: Order, token: TokenId) {
    o.token.id == token && o.pending > 0 ==>
      && !o.isCancelling && !o.shouldCancel && !At(w.desk, o.id, Recancelling)
      && (o.id in w.store.orders ==> w.store.orders[o.id].status != Canceled)
  }

  ghost predicate Quiet(w: World, token: TokenId) {
    forall i {:trigger QuietOrder(w, w.desk.mgr.orders[i], token)} ::
      0 <= i < |w.desk.mgr.orders| ==> QuietOrder(w, w.desk.mgr.orders[i], token)
  }

  /** The target of the token is the goal, or less than the gap below it, and the engine cancels none of its orders. */
  ghost predicate Undisturbed(w: World, m: Move, token: TokenId, goal: Micro) {
    m.Internal? ==>
      && !m.action.Settles?
      && (Places(m, token) ==> goal - SHARES_GAP < m.action.desired.Target() <= goal)
      && (m.action.EngineCancels? && w.desk.engine.Cancelling? ==>
            forall o :: o in w.desk.mgr.orders && o.id == w.desk.engine.orderId ==> o.token.id != token)
  }

  ghost predicate Resting(w: World, token: TokenId, goal: Micro, mark: Micro) {
    && Tracking(w.desk, token, 0, goal, mark) && Quiet(w, token) && !w.desk.closed
    && !(w.desk.engine.Creating? && w.desk.engine.token.id == token)
  }

  /** Within dust of a goal that is the target or less than the gap above it, the engine places nothing. */
  lemma NearGoalPlacesNothing(s: State, d: Desired, aged: bool, goal: Micro)
    requires goal - DUST <= Effective(s, d.token.id) <= goal
    requires goal - SHARES_GAP < d.Target() <= goal
    ensures !DecideOn(s, d, aged).Place?
  {
  }

  /** Without a cancel request, a truthful step on a quiet order keeps what it commits and stays quiet. */
  lemma QuietOrderStep(m: Market, store: Store, o: Order, st: OrderStep)
    requires Linked(m, store, o) && Truthful(store, o, st) && st != CancelRequest
    requires !o.isCancelling && !o.shouldCancel
    requires o.id in store.orders ==> store.orders[o.id].status != Canceled
    ensures var p := Step(o, st);
            Committed(p) == Committed(o) && !p.isCancelling && !p.shouldCancel
  {
    StepKeepsLinked(m, store, o, st);
  }

  /** Nobody requests a cancel of a quiet pending order. */
  lemma QuietNotRequested(w: World, m: Move, token: TokenId, goal: Micro, o: Order)
    requires Possible(w, m) && Undisturbed(w, m, token, goal) && DeskAction(w, m).Some?
    requires o in w.desk.mgr.orders && QuietOrder(w, o, token) && o.token.id == token && o.pending > 0
    ensures StepOf(w.desk, DeskAction(w, m).value) != Some((o.id, CancelRequest))
  {
  }

  /** `after` keeps what a quiet `o` commits, and is as quiet. */
  ghost predicate StaysQuiet(o: Order, after: Order, token: TokenId) {
    && after.id == o.id && after.token == o.token && after.side == o.side
    && (o.token.id == token ==> Committed(after) == Committed(o))
    && (o.token.id == token && after.pending > 0 ==> o.pending > 0 && !after.isCancelling && !after.shouldCancel)
  }

  lemma SteppedStaysQuiet(w: World, token: TokenId, o: Order, st: OrderStep)
    requires Linked(w.desk.market, w.store, o) && QuietOrder(w, o, token) && Truthful(w.store, o, st)
    requires o.token.id == token && o.pending > 0 ==> st != CancelRequest
    ensures StaysQuiet(o, Step(o, st), token)
  {
    StepKeepsCommitted(w.desk.market, w.store, o, st);
    if o.token.id == token && o.pending > 0 { QuietOrderStep(w.desk.market, w.store, o, st); }
  }

  lemma QuietStep(w: World, m: Move, token: TokenId, goal: Micro, after: seq<Order>, i: nat)
    requires Possible(w, m) && Links(w) && Quiet(w, token) && Undisturbed(w, m, token, goal)
    requires DeskAction(w, m).Some? && OrdersFollow(w.desk, DeskAction(w, m).value, after) && i < |w.desk.mgr.orders|
    ensures StaysQuiet(w.desk.mgr.orders[i], after[i], token)
  {
    var o, step := w.desk.mgr.orders[i], StepOf(w.desk, DeskAction(w, m).value);
    assert QuietOrder(w, o, token);
    if step.Some? && Find(w.desk.mgr.orders, step.value.0) == i {
      assert Linked(w.desk.market, w.store, o);
      ActionTruthful(w, m, o);
      if o.token.id == token && o.pending > 0 { QuietNotRequested(w, m, token, goal, o); }
      SteppedStaysQuiet(w, token, o, step.value.1);
    } else {
      assert SameButTrades(o, after[i]);
    }
  }

  /** No deferred cancel of a pending order of the token appears among the submit workers. */
  lemma QuietWorkersStay(w: World, m: Move, token: TokenId, o: Order)
    requires Possible(w, m) && Protocol(w.desk) && DeskAction(w, m).Some?
    requires o in w.desk.mgr.orders && QuietOrder(w, o, token) && o.token.id == token && o.pending > 0
    ensures var submits := NextSubmits(w.desk, DeskAction(w, m).value);
            !(o.id in submits && submits[o.id] == Recancelling)
  {
    assert OrderProtocol(w.desk.submits, w.desk.cancels, o);
  }

  lemma QuietFollows(w: World, m: Move, token: TokenId, goal: Micro, after: seq<Order>, next: World)
    requires Possible(w, m) && Links(w) && Protocol(w.desk) && Quiet(w, token) && Undisturbed(w, m, token, goal)
    requires DeskAction(w, m).Some? && OrdersFollow(w.desk, DeskAction(w, m).value, after)
    requires next.desk.mgr.orders == after && next.store == w.store
    requires next.desk.submits == NextSubmits(w.desk, DeskAction(w, m).value)
    ensures Quiet(next, token)
  {
    forall i | 0 <= i < |after|
      ensures QuietOrder(next, after[i], token)
    {
      if i < |w.desk.mgr.orders| {
        var o := w.desk.mgr.orders[i];
        assert QuietOrder(w, o, token);
        QuietStep(w, m, token, goal, after, i);
        if o.token.id == token && after[i].pending > 0 { QuietWorkersStay(w, m, token, o); }
      } else {
        assert DeskAction(w, m).value.id !in w.store.orders;
      }
    }
  }

  lemma DeskMoveKeepsQuiet(w: World, m: Move, token: TokenId, goal: Micro)
    requires Possible(w, m) && Coherent(w) && Quiet(w, token) && Undisturbed(w, m, token, goal) && DeskAction(w, m).Some?
    ensures Quiet(Advance(w, m), token)
  {
    OrdersAfter(w.desk, DeskAction(w, m).value);
    QuietFollows(w, m, token, goal, NextManager(w.desk, DeskAction(w, m).value).orders, Advance(w, m));
  }

  /** The exchange cancels only orders whose cancel is under way. */
  lemma ExchangeCancels(w: World, m: Move, id: OrderId)
    requires Possible(w, m) && Coherent(w) && DeskAction(w, m) == None
    requires id in NextStore(w, m).orders && NextStore(w, m).orders[id].status == Canceled
    ensures (id in w.store.orders && w.store.orders[id].status == Canceled) || (m == StoreCancels(id) && id in w.desk.cancels)
  {
    hide Protocol, EngineOk, InBooks, LogOk, Deliveries, OrdersLinked, EventsOk, StoreTracked, AnswersOk;
    if m.Mines? { MinePending(w.store, w.store.tradeIds, m.now); }
  }

  lemma ExchangeMoveKeepsQuiet(w: World, m: Move, token: TokenId)
    requires Possible(w, m) && Coherent(w) && Quiet(w, token) && DeskAction(w, m) == None
    ensures Quiet(Advance(w, m), token)
  {
    var next := Advance(w, m);
    forall i | 0 <= i < |w.desk.mgr.orders|
      ensures QuietOrder(next, w.desk.mgr.orders[i], token)
    {
      var o := w.desk.mgr.orders[i];
      assert QuietOrder(w, o, token);
      assert OrderProtocol(w.desk.submits, w.desk.cancels, o);
      if o.id in next.store.orders && next.store.orders[o.id].status == Canceled {
        ExchangeCancels(w, m, o.id);
      }
    }
  }

  lemma QuietStakesFollow(w: World, m: Move, token: TokenId, goal: Micro, side: Side, t: State)
    requires Possible(w, m) && Links(w) && Quiet(w, token) && Undisturbed(w, m, token, goal) && DeskAction(w, m).Some?
    requires OrdersFollow(w.desk, DeskAction(w, m).value, t.orders) && |t.orders| == |w.desk.mgr.orders|
    requires t.trades == w.desk.mgr.trades
    requires forall i :: 0 <= i < |t.orders| ==> t.orders[i].tradeIds == w.desk.mgr.orders[i].tradeIds
    ensures Stake(t, token, side) == Stake(w.desk.mgr, token, side)
  {
    var s := w.desk.mgr;
    var f := StakeOf(token, side, s.trades);
    forall j | 0 <= j < |s.orders|
      ensures f(t.orders[j]) == f(s.orders[j])
    {
      QuietStep(w, m, token, goal, t.orders, j);
      assert OnChainFailed(s.orders[j], s.trades) == OnChainFailed(t.orders[j], t.trades);
    }
    SumSame(s.orders, t.orders, f, f);
  }

  lemma QuietStakes(w: World, m: Move, token: TokenId, goal: Micro, side: Side)
    requires Possible(w, m) && Links(w) && Quiet(w, token) && Undisturbed(w, m, token, goal) && OrderStepMove(w, m)
    ensures Stake(NextManager(w.desk, DeskAction(w, m).value), token, side) == Stake(w.desk.mgr, token, side)
  {
    OrdersAfter(w.desk, DeskAction(w, m).value);
    TradeIdsKept(w.desk, DeskAction(w, m).value);
    OrderMoveKeepsRest(w, m);
    QuietStakesFollow(w, m, token, goal, side, NextManager(w.desk, DeskAction(w, m).value));
  }

  lemma CoherentLinks(w: World)
    requires Coherent(w)
    ensures Links(w)
  {
  }

  lemma RestingTracks(w: World, m: Move, token: TokenId, goal: Micro, mark: Micro)
    requires Possible(w, m) && Coherent(w) && Coherent(Advance(w, m)) && NoOversell(w.desk)
    requires Resting(w, token, goal, mark) && Undisturbed(w, m, token, goal) && DeskAction(w, m).Some?
    ensures Tracking(NextDesk(w, m), token, 0, goal, mark)
  {
    hide Protocol, EngineOk, InBooks, LogOk, Deliveries, OnCourse, OnlyDust, NoOversell, Quiet, Stake, Coherent;
    CoherentLinks(w);
    var a := DeskAction(w, m).value;
    if m == TradeTaken {
      TradeTakenOnCourse(w, token, 0, goal, mark);
      TradeTakenOnlyDust(w, token, mark);
    } else if a.CreateReturns? {
      CreateStakes(w.desk, a, token, Buy);
      CreateStakes(w.desk, a, token, Sell);
      CourseByStakes(w, Advance(w, m), token, 0, 0, goal, mark);
      DustByStakes(w, Advance(w, m), token, mark);
    } else {
      QuietStakes(w, m, token, goal, Buy);
      QuietStakes(w, m, token, goal, Sell);
      OrderMoveKeepsRest(w, m);
      CourseByStakes(w, Advance(w, m), token, 0, 0, goal, mark);
      DustByStakes(w, Advance(w, m), token, mark);
    }
  }

  lemma RestingEngine(w: World, m: Move, token: TokenId, goal: Micro, mark: Micro)
    requires Possible(w, m) && Resting(w, token, goal, mark) && Undisturbed(w, m, token, goal) && DeskAction(w, m).Some?
    ensures !(NextEngine(w.desk, DeskAction(w, m).value).Creating?
              && NextEngine(w.desk, DeskAction(w, m).value).token.id == token)
    ensures !DeskAction(w, m).value.Settles?
  {
    var a := DeskAction(w, m).value;
    if a.Observe? && a.desired.token.id == token {
      NearGoalPlacesNothing(w.desk.mgr, a.desired, a.aged, goal);
    }
  }

  lemma MoveKeepsResting(w: World, m: Move, token: TokenId, goal: Micro, mark: Micro)
    requires Possible(w, m) && Coherent(w) && Coherent(Advance(w, m)) && NoOversell(w.desk)
    requires Resting(w, token, goal, mark) && Undisturbed(w, m, token, goal)
    ensures Resting(Advance(w, m), token, goal, mark)
  {
    if DeskAction(w, m).Some? {
      RestingTracks(w, m, token, goal, mark);
      RestingEngine(w, m, token, goal, mark);
      DeskMoveKeepsQuiet(w, m, token, goal);
    } else {
      ExchangeMoveKeepsQuiet(w, m, token);
    }
  }

  lemma NewOrderRests(w: World, m: Move)
    requires Possible(w, m) && Coherent(w) && Coherent(Advance(w, m)) && Heading(w.desk) && Aiming(w.desk)
    requires m.Internal? && m.action.CreateReturns? && !w.desk.closed
    ensures Resting(Advance(w, m), w.desk.engine.token.id, w.desk.engine.goal, w.desk.engine.mark)
  {
    hide Protocol, EngineOk, InBooks, LogOk, Deliveries, Tracking;
    CreateTracks(w, m);
    assert m.action.id !in w.store.orders;
    var next := Advance(w, m);
    forall i | 0 <= i < |next.desk.mgr.orders|
      ensures QuietOrder(next, next.desk.mgr.orders[i], w.desk.engine.token.id)
    {
    }
  }

  ghost predicate Stored(ws: seq<World>, ms: seq<Move>, k: nat) {
    && k < |ms| && k < |ws| && !ws[k].desk.closed && ws[k].desk.engine.Creating?
    && ms[k].Internal? && ms[k].action.CreateReturns?
  }

  lemma StoredRests(ws: seq<World>, ms: seq<Move>, k: nat)
    requires History(ws, ms) && Stored(ws, ms, k)
    ensures var c := ws[k].desk.engine; Resting(ws[k + 1], c.token.id, c.goal, c.mark)
  {
    CoherentReached(ws, ms, k);
    CoherentReached(ws, ms, k + 1);
    AimingReached(ws, ms, k);
    NewOrderRests(ws[k], ms[k]);
  }

  lemma RestingStep(ws: seq<World>, ms: seq<Move>, i: nat, token: TokenId, goal: Micro, mark: Micro)
    requires History(ws, ms) && i < |ms|
    requires Resting(ws[i], token, goal, mark) && Undisturbed(ws[i], ms[i], token, goal)
    ensures Resting(ws[i + 1], token, goal, mark)
  {
    CoherentReached(ws, ms, i);
    CoherentReached(ws, ms, i + 1);
    NeverOversold(ws, ms, i);
    MoveKeepsResting(ws[i], ms[i], token, goal, mark);
  }

  lemma {:induction false} RestingReached(ws: seq<World>, ms: seq<Move>, k: nat, n: nat, token: TokenId, goal: Micro)
    requires History(ws, ms) && Stored(ws, ms, k) && k < n < |ws|
    requires ws[k].desk.engine.token.id == token && ws[k].desk.engine.goal == goal
    requires forall i :: k < i < n ==> Undisturbed(ws[i], ms[i], token, goal)
    ensures Resting(ws[n], token, goal, ws[k].desk.engine.mark)
    decreases n
  {
    hide Undisturbed, Resting, Possible, Advance, Begins;
    if n == k + 1 {
      StoredRests(ws, ms, k);
    } else {
      RestingReached(ws, ms, k, n - 1, token, goal);
      RestingStep(ws, ms, n - 1, token, goal, ws[k].desk.engine.mark);
    }
  }

  // -------------------------------------------------------- a constant target

  /** Matched shares of buys that are not yet on chain; no sell can offer them. */
  function OpenSettling(s: State, token: TokenId): Micro {
    BuildPosition(s, token).openSettling
  }

  lemma {:induction false} NothingPendingSums(orders: seq<Order>, token: TokenId, side: Side)
    requires NothingPending(orders, token)
    ensures Sum(orders, PendingOf(token, side)) == 0
  {
    if orders != [] {
      NothingPendingSums(orders[..|orders| - 1], token, side);
    }
  }

  /** With nothing pending, and sells covered, what cannot be sold is exactly what is still settling in. */
  lemma UnsellableIsSettling(s: State, token: TokenId)
    requires NothingPending(s.orders, token) && Claim(s, token) <= PositionOf(s, token).shares
    ensures var p := BuildPosition(s, token); p.EffectiveShares() - p.SellableShares() == p.openSettling
  {
    NothingPendingSums(s.orders, token, Buy);
    NothingPendingSums(s.orders, token, Sell);
  }

  lemma InactiveNothingPending(w: World, token: TokenId)
    requires Coherent(w) && ActiveOrder(w.desk.mgr, token) == None
    ensures NothingPending(w.desk.mgr.orders, token)
  {
    hide Protocol, EngineOk, InBooks, LogOk, Deliveries, StoreOk, StoreTracked, AnswersOk, EventsOk, FeedOk;
    forall i | 0 <= i < |w.desk.mgr.orders| && w.desk.mgr.orders[i].token.id == token
      ensures w.desk.mgr.orders[i].pending == 0
    {
      assert Linked(w.desk.market, w.store, w.desk.mgr.orders[i]);
    }
  }

  lemma Covered(d: Desk, token: TokenId)
    requires NoOversell(d) && !d.closed && (d.engine.Creating? ==> d.engine.shares >= 0)
    ensures Claim(d.mgr, token) <= PositionOf(d.mgr, token).shares
  {
    assert Claim(d.mgr, token) + Reserve(d.engine, token) <= PositionOf(d.mgr, token).shares;
  }

  /**
   The placing guard: before settlement the engine places an order if and only if the token
   has no active one and the effective position is at least the gap below the target, or at
   least the gap above both the target and what is still settling in.
   */
  lemma PlacesIff(w: World, d: Desired, aged: bool)
    requires Coherent(w) && NoOversell(w.desk) && !w.desk.closed
    ensures var effective := Effective(w.desk.mgr, d.token.id);
            DecideOn(w.desk.mgr, d, aged).Place? <==>
              && ActiveOrder(w.desk.mgr, d.token.id) == None
              && (d.Target() - effective >= SHARES_GAP
                  || effective - Max(d.Target(), OpenSettling(w.desk.mgr, d.token.id)) >= SHARES_GAP)
  {
    hide Protocol, InBooks, Links, LogOk, Deliveries, NoOversell, BuildPosition, ActiveOrder;
    if ActiveOrder(w.desk.mgr, d.token.id) == None {
      InactiveNothingPending(w, d.token.id);
      Covered(w.desk, d.token.id);
      UnsellableIsSettling(w.desk.mgr, d.token.id);
    }
  }

  /** The goal of an order is the target, or what is settling in when that is more. */
  lemma GoalOf(w: World, m: Move)
    requires Possible(w, m) && Coherent(w) && NoOversell(w.desk) && !w.desk.closed && m.Internal? && m.action.Observe?
    requires NextEngine(w.desk, m.action).Creating?
    ensures NextEngine(w.desk, m.action).goal
         == Max(m.action.desired.Target(), OpenSettling(w.desk.mgr, m.action.desired.token.id))
  {
    hide Protocol, InBooks, Links, LogOk, Deliveries, NoOversell, BuildPosition, NothingPending, Tracking;
    var token := m.action.desired.token.id;
    ObserveAims(w, m);
    Covered(w.desk, token);
    UnsellableIsSettling(w.desk.mgr, token);
    SettledInBelow(w.desk.mgr, token);
    PlacesTowardsTarget(w.desk.mgr, m.action.desired, m.action.aged);
  }

  lemma SettledInBelow(s: State, token: TokenId)
    ensures BuildPosition(s, token).SellableShares() >= 0
  {
  }

  /** The target of the token stays what it is, and the engine cancels none of its orders. */
  ghost predicate Steady(w: World, m: Move, token: TokenId, target: Micro) {
    m.Internal? ==>
      && !m.action.Settles?
      && (Places(m, token) ==> m.action.desired.Target() == target)
      && (m.action.EngineCancels? && w.desk.engine.Cancelling? ==>
            forall o :: o in w.desk.mgr.orders && o.id == w.desk.engine.orderId ==> o.token.id != token)
  }

  /** From a decision at `j` for this target to the order stored at `k`, and the target constant until `n`. */
  ghost predicate ConstantTarget(ws: seq<World>, ms: seq<Move>, j: nat, k: nat, n: nat, token: TokenId, target: Micro) {
    && History(ws, ms) && j < k < n < |ws|
    && Places(ms[j], token) && ms[j].action.desired.Target() == target
    && (forall i :: j < i <= k ==> ws[i].desk.engine.Creating?)
    && Stored(ws, ms, k)
    && (forall i :: k < i < n ==> Steady(ws[i], ms[i], token, target))
  }

  /**
   Under a constant target no second order is placed, for every buy and for every sell whose
   target is not the gap or more below what was settling in at the decision; the effective
   position stays within dust of the higher of the two.
   */
  lemma NoSecondOrder(ws: seq<World>, ms: seq<Move>, j: nat, k: nat, n: nat, token: TokenId, target: Micro)
    requires ConstantTarget(ws, ms, j, k, n, token, target)
    requires target > OpenSettling(ws[j].desk.mgr, token) - SHARES_GAP
    ensures var goal := Max(target, OpenSettling(ws[j].desk.mgr, token));
            goal - DUST <= Effective(ws[n].desk.mgr, token) <= goal
    ensures !(ws[n].desk.engine.Creating? && ws[n].desk.engine.token.id == token)
  {
    hide Coherent, NoOversell, BuildPosition, Aiming;
    StoredGoal(ws, ms, j, k, n, token, target);
    RestingReached(ws, ms, k, n, token, Max(target, OpenSettling(ws[j].desk.mgr, token)));
  }

  lemma StoredGoal(ws: seq<World>, ms: seq<Move>, j: nat, k: nat, n: nat, token: TokenId, target: Micro)
    requires ConstantTarget(ws, ms, j, k, n, token, target)
    ensures var c := ws[k].desk.engine;
            c.Creating? && c.token.id == token && c.goal == Max(target, OpenSettling(ws[j].desk.mgr, token))
  {
    hide Coherent, NoOversell, BuildPosition, Aiming, NextManager;
    CoherentReached(ws, ms, j);
    NeverOversold(ws, ms, j);
    StageHeld(ws, ms, j, k);
    StillOpen(ws, ms, j, k);
    assert Possible(ws[j], ms[j]) && ws[j + 1] == Advance(ws[j], ms[j]);
    ObserveAims(ws[j], ms[j]);
    GoalOf(ws[j], ms[j]);
  }
}
