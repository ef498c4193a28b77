/**
 Exactly-once: each fill of the exchange reaches the position once, and only with
 the delivery of its mined report.
 */
module WorldTrades {
  import opened Desk
  import opened Domain
  import opened Ledger
  import opened Manager
  import opened MockStore
  import opened Positions
  import opened Seqs
  import opened World
  import opened WorldKeepsLinks
  import opened WorldLinks

  /** The manager's trade is the store's, settled exactly when it succeeded. */
  ghost predicate TradeKnown(trades: map<TradeId, Trade>, store: map<TradeId, MockTrade>, t: TradeId) {
    && t in trades && t in store
    && trades[t].orderId == store[t].orderId && trades[t].side == store[t].side && trades[t].tokenId == store[t].tokenId
    && trades[t].status != TradeFailure && trades[t].failedShares == 0
    && trades[t].settledShares == (if trades[t].status == TradeSuccess then store[t].shares else 0)
  }

  /** A posting carries the whole fill, on its own side and token. */
  ghost predicate FillOk(store: map<TradeId, MockTrade>, p: Posting) {
    p.Fill? ==> p.tradeId in store && p.shares == store[p.tradeId].shares && p.side == store[p.tradeId].side
                && p.token == store[p.tradeId].tokenId
  }

  ghost predicate Deliveries(trades: map<TradeId, Trade>, store: map<TradeId, MockTrade>,
                             ps: seq<Posting>, delivered: seq<TradeEvent>) {
    && (forall t {:trigger TradeKnown(trades, store, t)} :: t in trades ==> TradeKnown(trades, store, t))
    && (forall t {:trigger Succeeded(trades, t)} :: Succeeded(trades, t) <==> Logged(delivered, t, Mined))
    && (forall t :: Fills(ps, t) == if Succeeded(trades, t) then 1 else 0)
    && (forall i {:trigger FillOk(store, ps[i])} :: 0 <= i < |ps| ==> FillOk(store, ps[i]))
  }

  ghost predicate Coherent(w: World) {
    && Protocol(w.desk) && EngineOk(w.desk) && InBooks(w.desk)
    && Links(w)
    && LogOk(w.store.trades, TradeLog(w))
    && Deliveries(w.desk.mgr.trades, w.store.trades, w.desk.postings, w.delivered)
  }

  /** The next trade event is the first of the undelivered ones. */
  lemma NextEvent(w: World)
    requires Coherent(w) && w.tradeQueue.items != []
    ensures var e := w.tradeQueue.items[0];
            && Reported(w.store.trades, e)
            && (forall i {:trigger w.delivered[i]} :: 0 <= i < |w.delivered| ==> InSequence(w.delivered[i], e))
  {
    var n, log := |w.delivered|, TradeLog(w);
    assert log[n] == w.tradeQueue.items[0];
    assert Reported(w.store.trades, log[n]);
    forall i | 0 <= i < n
      ensures InSequence(w.delivered[i], log[n])
    {
      assert log[i] == w.delivered[i];
      assert InSequence(log[i], log[n]);
    }
  }

  /** The exchange and the queue discharge the assumption on the trade feed. */
  lemma MockTradesStable(w: World)
    requires Coherent(w) && w.tradeQueue.items != []
    ensures StableTrade(w.desk.mgr, w.tradeQueue.items[0])
    ensures Accepts(w.desk.mgr, w.tradeQueue.items[0])
    ensures !Succeeded(w.desk.mgr.trades, w.tradeQueue.items[0].tradeId)
  {
    var e := w.tradeQueue.items[0];
    NextEvent(w);
    TradeFindsOrder(w, e);
    if e.tradeId in w.desk.mgr.trades {
      assert TradeKnown(w.desk.mgr.trades, w.store.trades, e.tradeId);
    }
    assert !Logged(w.delivered, e.tradeId, Mined);
    assert Succeeded(w.desk.mgr.trades, e.tradeId) <==> Logged(w.delivered, e.tradeId, Mined);
  }

  lemma LoggedAppend(log: seq<TradeEvent>, e: TradeEvent, t: TradeId)
    ensures Logged(log + [e], t, Mined) <==> Logged(log, t, Mined) || (e.tradeId == t && e.status == Mined)
  {
    LoggedGrows(log, [e]);
    if Logged(log + [e], t, Mined) {
      var i :| 0 <= i < |log + [e]| && (log + [e])[i].tradeId == t && (log + [e])[i].status == Mined;
      if i < |log| { assert log[i].tradeId == t && log[i].status == Mined; }
    }
    if e.tradeId == t && e.status == Mined { assert (log + [e])[|log|] == e; }
  }

  /** Recording a report of a trade that has not succeeded posts its fill if and only if it is the mined report. */
  lemma RecordDelivers(s: State, store: map<TradeId, MockTrade>, ps: seq<Posting>, delivered: seq<TradeEvent>, e: TradeEvent)
    requires Deliveries(s.trades, store, ps, delivered) && Accepts(s, e) && Reported(store, e)
    requires !Succeeded(s.trades, e.tradeId)
    ensures Deliveries(HandleTradeEvent(s, e).trades, store, TradePostings(s, ps, e), delivered + [e])
  {
    var after, ps' := HandleTradeEvent(s, e).trades, TradePostings(s, ps, e);
    if e.tradeId in s.trades { assert TradeKnown(s.trades, store, e.tradeId); }
    assert after == s.trades[e.tradeId := RecordTrade(PriorTrade(s, e), e)];
    assert Confirms(s, e) <==> e.status == Mined;
    forall t | t in after
      ensures TradeKnown(after, store, t)
    {
      if t != e.tradeId { assert TradeKnown(s.trades, store, t); }
    }
    forall t
      ensures Succeeded(after, t) <==> Logged(delivered + [e], t, Mined)
      ensures Fills(ps', t) == if Succeeded(after, t) then 1 else 0
    {
      LoggedAppend(delivered, e, t);
      assert Succeeded(s.trades, t) <==> Logged(delivered, t, Mined);
      if Confirms(s, e) { FillsAppend(ps, PostingFor(s, e), t); }
    }
    forall i | 0 <= i < |ps'|
      ensures FillOk(store, ps'[i])
    {
      if i < |ps| { assert FillOk(store, ps[i]); }
    }
  }

  lemma TradeTakenDelivers(w: World)
    requires Coherent(w) && w.tradeQueue.items != []
    ensures var e := w.tradeQueue.items[0];
            Deliveries(HandleTradeEvent(w.desk.mgr, e).trades, w.store.trades,
                       TradePostings(w.desk.mgr, w.desk.postings, e), w.delivered + [e])
  {
    NextEvent(w);
    MockTradesStable(w);
    RecordDelivers(w.desk.mgr, w.store.trades, w.desk.postings, w.delivered, w.tradeQueue.items[0]);
  }

  lemma OtherActionsDeliver(w: World, a: Action)
    requires Coherent(w) && Enabled(w.desk, a) && !a.TradeArrives?
    ensures Deliveries(NextManager(w.desk, a).trades, w.store.trades, NextPostings(w.desk, a), w.delivered)
  {
    OtherActionsKeepTrades(w.desk, a);
    var ps, ps' := w.desk.postings, NextPostings(w.desk, a);
    var more := ps'[|ps|..];
    assert ps' == ps + more;
    forall p | p in more
      ensures p.Payout?
    {
      var i :| 0 <= i < |more| && more[i] == p;
      assert ps'[|ps| + i] == p;
    }
    forall t
      ensures Fills(ps', t) == if Succeeded(w.desk.mgr.trades, t) then 1 else 0
    {
      PayoutsFillNothing(ps, more, t);
    }
    forall i | 0 <= i < |ps'|
      ensures FillOk(w.store.trades, ps'[i])
    {
      if i < |ps| { assert FillOk(w.store.trades, ps[i]); }
    }
  }

  /** Moves of the exchange keep every trade's terms. */
  lemma StoreMovesDeliver(w: World, after: Store)
    requires Coherent(w) && StoreMoves(w.store, after)
    ensures Deliveries(w.desk.mgr.trades, after.trades, w.desk.postings, w.delivered)
  {
    forall t | t in w.desk.mgr.trades
      ensures TradeKnown(w.desk.mgr.trades, after.trades, t)
    {
      assert TradeKnown(w.desk.mgr.trades, w.store.trades, t);
      assert TradeMoves(w.store.trades[t], after.trades[t]);
    }
    forall i | 0 <= i < |w.desk.postings|
      ensures FillOk(after.trades, w.desk.postings[i])
    {
      var p := w.desk.postings[i];
      assert FillOk(w.store.trades, p);
      if p.Fill? { assert TradeMoves(w.store.trades[p.tradeId], after.trades[p.tradeId]); }
    }
  }

  /** The log after a move is the log before it, extended by what the exchange reports. */
  lemma MoveKeepsLog(w: World, m: Move)
    requires Possible(w, m) && Coherent(w)
    ensures LogOk(NextStore(w, m).trades, TradeLog(Advance(w, m)))
  {
    hide Protocol, EngineOk, InBooks, OrdersLinked, EventsOk, FeedOk, StoreTracked, AnswersOk, Deliveries;
    hide StoreOk, NextDesk, LogOk;
    var log := TradeLog(w);
    var longer := NextDelivered(w, m) + Undelivered(NextTradeQueue(w, m), NextBatch(w, m), NextStore(w, m));
    if m.Matches? || m.Mines? || m.StoreCancels? || m.StoreSubmits? {
      var more: seq<TradeEvent> := [];
      assert log + more == log && TradesIn(w.store.pending) + more == TradesIn(w.store.pending);
      if m.Matches? {
        more := MatchOk(w.store, m.id, m.tradeId, m.price, m.now, m.delay, log);
      } else if m.Mines? {
        more := PromoteAllOk(w.store, w.store.tradeIds, m.now, log);
      } else if m.StoreCancels? {
        CancelOk(w.store, m.id);
      }
      EmissionExtendsLog(w, m, more);
    } else {
      TransportKeepsLog(w, m);
    }
    assert TradeLog(Advance(w, m)) == longer;
  }

  /** Every move keeps the system coherent. */
  lemma MoveKeepsCoherent(w: World, m: Move)
    requires Possible(w, m) && Coherent(w)
    ensures Coherent(Advance(w, m))
  {
    if m == TradeTaken { NextEvent(w); }
    MoveKeepsLinks(w, m);
    MoveKeepsLog(w, m);
    DeskStaysCoherent(w, m);
    MoveKeepsDeliveries(w, m);
  }

  lemma DeskStaysCoherent(w: World, m: Move)
    requires Possible(w, m) && Coherent(w)
    ensures Protocol(NextDesk(w, m)) && EngineOk(NextDesk(w, m)) && InBooks(NextDesk(w, m))
  {
    if DeskAction(w, m).Some? {
      var a := DeskAction(w, m).value;
      StepKeepsProtocol(w.desk, a);
      EngineStaysOk(w.desk, a);
      if m == TradeTaken { MockTradesStable(w); }
      StepKeepsBooks(w.desk, a);
    }
  }

  lemma MoveKeepsDeliveries(w: World, m: Move)
    requires Possible(w, m) && Coherent(w)
    ensures Deliveries(NextDesk(w, m).mgr.trades, NextStore(w, m).trades, NextDesk(w, m).postings, NextDelivered(w, m))
  {
    hide Protocol, EngineOk, InBooks, Links, LogOk, Deliveries;
    if m == TradeTaken {
      TradeTakenDelivers(w);
    } else if DeskAction(w, m).Some? {
      OtherActionsDeliver(w, DeskAction(w, m).value);
    } else {
      ExchangeMoves(w, m);
      StoreMovesDeliver(w, NextStore(w, m));
    }
  }

  lemma ExchangeMoves(w: World, m: Move)
    requires Possible(w, m) && Coherent(w) && DeskAction(w, m) == None
    ensures StoreMoves(w.store, NextStore(w, m))
  {
    hide Protocol, EngineOk, InBooks, LogOk, Deliveries, OrdersLinked, EventsOk, FeedOk, StoreOk;
    if m.StoreCancels? || m.Matches? || m.Mines? {
      ExchangeMoveKeepsStore(w, m);
    } else if m.StoreSubmits? {
      assert m.id !in w.store.orders;
      SubmitOk(w.store, ClientOrder(w.desk.mgr.orders[Find(w.desk.mgr.orders, m.id)], m.now));
    }
  }

  lemma {:induction false} CoherentReached(ws: seq<World>, ms: seq<Move>, k: nat)
    requires History(ws, ms) && k < |ws|
    ensures Coherent(ws[k])
  {
    hide Coherent, Possible, Advance, Begins;
    if k > 0 {
      CoherentReached(ws, ms, k - 1);
      MoveKeepsCoherent(ws[k - 1], ms[k - 1]);
    } else {
      BeginsCoherent(ws[0]);
    }
  }

  lemma BeginsCoherent(w: World)
    requires Begins(w)
    ensures Coherent(w)
  {
    assert TradesIn([]) == [];
    assert TradeLog(w) == [];
  }

  /**
   Exactly-once, in every interleaving: a trade of the exchange is posted once if its
   mined report has been handled and not at all before; the posting carries the whole
   fill, and the report of every mined trade has been handled or is still in the pipeline.
   */
  lemma ExactlyOnce(ws: seq<World>, ms: seq<Move>, k: nat, t: TradeId)
    requires History(ws, ms) && k < |ws|
    ensures Fills(ws[k].desk.postings, t) == if Logged(ws[k].delivered, t, Mined) then 1 else 0
    ensures forall p :: p in ws[k].desk.postings ==> FillOk(ws[k].store.trades, p)
    ensures t in ws[k].store.trades && ws[k].store.trades[t].status == Mined ==> Logged(TradeLog(ws[k]), t, Mined)
  {
    CoherentReached(ws, ms, k);
    var w := ws[k];
    assert Succeeded(w.desk.mgr.trades, t) <==> Logged(w.delivered, t, Mined);
    forall p | p in w.desk.postings
      ensures FillOk(w.store.trades, p)
    {
      var i :| 0 <= i < |w.desk.postings| && w.desk.postings[i] == p;
      assert FillOk(w.store.trades, w.desk.postings[i]);
    }
  }

  /** The share ledger over the mock exchange, with no assumption left. */
  lemma LedgerOverMock(ws: seq<World>, ms: seq<Move>, k: nat, token: TokenId)
    requires History(ws, ms) && k < |ws|
    ensures var s, books := ws[k].desk.mgr, Replay(ws[k].desk.postings, token).books;
            PositionOf(s, token).shares + books.dropped + books.paid ==
            SettledShares(s, token, Buy) - SettledShares(s, token, Sell)
  {
    hide Protocol, EngineOk, Links, LogOk, Deliveries;
    CoherentReached(ws, ms, k);
    ShareLedger(ws[k].desk.postings, token);
  }
}
