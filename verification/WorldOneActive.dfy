/**
 What the mock exchange makes of the assumptions on the order feed.

 Events carry the right size and no order is rejected, in every reachable state. What is
 left is timing alone: what else has happened when a submit answer is handled.
 */
module WorldOneActive {
  import opened Desk
  import opened Domain
  import opened Manager
  import opened MockStore
  import opened OneActive
  import opened Orders
  import opened World
  import opened WorldKeepsLinks
  import opened WorldLinks
  import opened WorldTrades

  /** Order events of the mock exchange report the size each order was created with. */
  lemma MoveSized(w: World, m: Move)
    requires Coherent(w) && Possible(w, m) && DeskAction(w, m).Some?
    ensures SizedAction(w.desk, DeskAction(w, m).value)
  {
    hide Protocol, LogOk, Deliveries, EventsOk, FeedOk, StoreTracked, AnswersOk, StoreOk, Linked;
    var a := DeskAction(w, m).value;
    if a.OrderArrives? {
      forall o | o in w.desk.mgr.orders && o.id == a.order.orderId
        ensures Sized(o, Feed(a.order))
      {
        var i :| 0 <= i < |w.desk.mgr.orders| && w.desk.mgr.orders[i] == o;
        assert Linked(w.desk.market, w.store, w.desk.mgr.orders[i]);
        ActionTruthful(w, m, o);
        StepKeepsLinked(w.desk.market, w.store, o, Feed(a.order));
      }
    }
  }

  /** Over the mock exchange the pending/matched law needs no assumption at all. */
  lemma {:induction false} PendingLawOverMock(ws: seq<World>, ms: seq<Move>, k: nat)
    requires History(ws, ms) && k < |ws|
    ensures AllPendingLaw(ws[k].desk)
    ensures k < |ms| ==> OrdersAdvance(ws[k].desk.mgr.orders, ws[k + 1].desk.mgr.orders)
  {
    if k > 0 {
      PendingLawOverMock(ws, ms, k - 1);
      PendingLawStep(ws, ms, k - 1);
    }
    if k < |ms| {
      PendingLawStep(ws, ms, k);
    }
  }

  ghost predicate OrdersAdvance(before: seq<Order>, after: seq<Order>) {
    |after| >= |before| && forall i :: 0 <= i < |before| ==> Advances(before[i], after[i])
  }

  lemma PendingLawStep(ws: seq<World>, ms: seq<Move>, k: nat)
    requires History(ws, ms) && k < |ms| && AllPendingLaw(ws[k].desk)
    ensures AllPendingLaw(ws[k + 1].desk)
    ensures OrdersAdvance(ws[k].desk.mgr.orders, ws[k + 1].desk.mgr.orders)
  {
    hide Coherent, AllPendingLaw, SizedAction, FittingAction, NoneNegative;
    CoherentReached(ws, ms, k);
    assert Possible(ws[k], ms[k]) && ws[k + 1] == Advance(ws[k], ms[k]);
    if DeskAction(ws[k], ms[k]).Some? {
      var a := DeskAction(ws[k], ms[k]).value;
      MoveSized(ws[k], ms[k]);
      SizedFits(ws[k].desk, a);
      LawNoneNegative(ws[k]);
      StepKeepsPendingLawIff(ws[k].desk, a);
      StepAdvances(ws[k].desk, a);
    }
  }

  lemma LawNoneNegative(w: World)
    requires Coherent(w) && AllPendingLaw(w.desk)
    ensures NoneNegative(w.desk)
  {
    hide Protocol, Links, LogOk, Deliveries;
  }

  // ----------------------------------------------------------- never rejected

  /** The exchange accepts every submission, so no order was rejected. */
  ghost predicate Unrejected(d: Desk) {
    Lawful(d) && forall o :: o in d.mgr.orders ==> o.status != SubFailed
  }

  lemma StepRejectsNothing(o: Order, st: OrderStep)
    requires o.status != SubFailed && st != SubmitFailed
    ensures Step(o, st).status != SubFailed
  {
  }

  lemma UnrejectedFollows(d: Desk, a: Action, after: seq<Order>)
    requires Unrejected(d) && OrdersFollow(d, a, after) && (a.SubmitReturns? ==> a.ok)
    ensures forall o :: o in after ==> o.status != SubFailed
  {
    hide Step, Lawful;
    forall i | 0 <= i < |after|
      ensures after[i].status != SubFailed
    {
      if i < |d.mgr.orders| {
        assert d.mgr.orders[i] in d.mgr.orders;
        var step := StepOf(d, a);
        if step.Some? && Find(d.mgr.orders, step.value.0) == i { StepRejectsNothing(d.mgr.orders[i], step.value.1); }
      }
    }
  }

  lemma AnswersAccept(w: World, m: Move)
    requires Coherent(w) && Possible(w, m) && DeskAction(w, m).Some?
    ensures DeskAction(w, m).value.SubmitReturns? ==> m.SubmitAnswered? && DeskAction(w, m).value.ok
  {
  }

  lemma MoveKeepsUnrejected(w: World, m: Move)
    requires Coherent(w) && Possible(w, m) && Unrejected(w.desk)
    ensures Unrejected(NextDesk(w, m))
  {
    hide Coherent, NextManager;
    if DeskAction(w, m).Some? {
      var a := DeskAction(w, m).value;
      AnswersAccept(w, m);
      OrdersAfter(w.desk, a);
      LawfulFollows(w.desk, a, NextManager(w.desk, a).orders);
      UnrejectedFollows(w.desk, a, NextManager(w.desk, a).orders);
    }
  }

  lemma {:induction false} UnrejectedReached(ws: seq<World>, ms: seq<Move>, k: nat)
    requires History(ws, ms) && k < |ws|
    ensures Unrejected(ws[k].desk)
  {
    hide Unrejected, Possible, Advance;
    if k > 0 {
      UnrejectedReached(ws, ms, k - 1);
      CoherentReached(ws, ms, k - 1);
      AdvancesDesk(ws[k - 1], ms[k - 1]);
      MoveKeepsUnrejected(ws[k - 1], ms[k - 1]);
    } else {
      BeginsUnrejected(ws[0]);
    }
  }

  lemma AdvancesDesk(w: World, m: Move)
    requires Possible(w, m)
    ensures Advance(w, m).desk == NextDesk(w, m)
  {
  }

  lemma BeginsUnrejected(w: World)
    requires Begins(w)
    ensures Unrejected(w.desk) && OneInDesk(w.desk)
  {
  }

  // ------------------------------------------------------ one active, exactly

  /** The submit answer handled in this move, if it is one, finds its order still active. */
  ghost predicate FindsActive(w: World, m: Move) {
    m.SubmitAnswered? && Tracks(w.desk.mgr, m.id) ==> w.desk.mgr.orders[Find(w.desk.mgr.orders, m.id)].IsActive()
  }

  /** Or nothing else of its token is active or being created. */
  ghost predicate FindsActiveOrFree(w: World, m: Move) {
    m.SubmitAnswered? && Tracks(w.desk.mgr, m.id) ==>
      var i := Find(w.desk.mgr.orders, m.id);
      w.desk.mgr.orders[i].IsActive() || FreeOf(w.desk, w.desk.mgr.orders, i, w.desk.mgr.orders[i].token.id)
  }

  /** Over the mock exchange nothing but a late submit answer revives an order. */
  lemma RevivingMoves(w: World, m: Move)
    requires Coherent(w) && Possible(w, m) && Unrejected(w.desk) && DeskAction(w, m).Some?
    ensures Revives(w.desk, DeskAction(w, m).value) <==> !FindsActive(w, m)
    ensures Harmless(w.desk, DeskAction(w, m).value) <==> FindsActiveOrFree(w, m)
  {
    hide Coherent, FreeOf, Lawful;
    AnswersAccept(w, m);
  }

  lemma MoveKeepsOneIff(w: World, m: Move)
    requires Coherent(w) && Possible(w, m) && Unrejected(w.desk) && OneInDesk(w.desk)
    ensures OneInDesk(NextDesk(w, m)) <==> FindsActiveOrFree(w, m)
  {
    hide Coherent, Lawful, OnePerToken, FreeOf, Harmless, Revives, NextManager, NextEngine;
    if DeskAction(w, m).Some? {
      RevivingMoves(w, m);
      StepKeepsOneIff(w.desk, DeskAction(w, m).value);
    }
  }

  lemma MoveFinalIff(w: World, m: Move)
    requires Coherent(w) && Possible(w, m) && Unrejected(w.desk)
    ensures StayFinished(w.desk.mgr.orders, NextDesk(w, m).mgr.orders) <==> FindsActive(w, m)
  {
    hide Coherent, Lawful, Harmless, Revives, NextManager, NextEngine, FreeOf;
    if DeskAction(w, m).Some? {
      RevivingMoves(w, m);
      StepRevivesIff(w.desk, DeskAction(w, m).value);
    }
  }

  /** What one move of a history does to both properties. */
  lemma HistoryMove(ws: seq<World>, ms: seq<Move>, n: nat)
    requires History(ws, ms) && n < |ms|
    ensures OneInDesk(ws[n].desk) ==> (OneInDesk(ws[n + 1].desk) <==> FindsActiveOrFree(ws[n], ms[n]))
    ensures StayFinished(ws[n].desk.mgr.orders, ws[n + 1].desk.mgr.orders) <==> FindsActive(ws[n], ms[n])
  {
    hide Coherent, Unrejected, OneInDesk, StayFinished, FindsActive, FindsActiveOrFree, Possible, Advance;
    CoherentReached(ws, ms, n);
    UnrejectedReached(ws, ms, n);
    AdvancesDesk(ws[n], ms[n]);
    MoveFinalIff(ws[n], ms[n]);
    if OneInDesk(ws[n].desk) { MoveKeepsOneIff(ws[n], ms[n]); }
  }

  lemma {:induction false} OneReached(ws: seq<World>, ms: seq<Move>, k: nat)
    requires History(ws, ms) && k < |ws|
    requires forall n :: 0 <= n < |ms| ==> FindsActiveOrFree(ws[n], ms[n])
    ensures OneInDesk(ws[k].desk)
  {
    hide OneInDesk, FindsActiveOrFree, Possible, Advance;
    if k > 0 {
      OneReached(ws, ms, k - 1);
      HistoryMove(ws, ms, k - 1);
    } else {
      BeginsUnrejected(ws[0]);
    }
  }

  /**
   Over the mock exchange: in every state of a history no token has two active orders, or one
   beside one being created, if and only if every submit answer, when it is handled, finds its
   order still active or its token otherwise free.
   */
  lemma OneActiveOverMock(ws: seq<World>, ms: seq<Move>)
    requires History(ws, ms)
    ensures (forall k :: 0 <= k < |ws| ==> OneInDesk(ws[k].desk))
       <==> (forall n :: 0 <= n < |ms| ==> FindsActiveOrFree(ws[n], ms[n]))
  {
    hide OneInDesk, FindsActiveOrFree, Possible, Advance;
    if forall k :: 0 <= k < |ws| ==> OneInDesk(ws[k].desk) {
      forall n | 0 <= n < |ms|
        ensures FindsActiveOrFree(ws[n], ms[n])
      {
        HistoryMove(ws, ms, n);
        assert OneInDesk(ws[n].desk) && OneInDesk(ws[n + 1].desk);
      }
    }
    if forall n :: 0 <= n < |ms| ==> FindsActiveOrFree(ws[n], ms[n]) {
      forall k | 0 <= k < |ws|
        ensures OneInDesk(ws[k].desk)
      {
        OneReached(ws, ms, k);
      }
    }
  }

  lemma {:induction false} FinalReached(ws: seq<World>, ms: seq<Move>, j: nat, k: nat)
    requires History(ws, ms) && j <= k < |ws|
    requires forall n :: 0 <= n < |ms| ==> FindsActive(ws[n], ms[n])
    ensures StayFinished(ws[j].desk.mgr.orders, ws[k].desk.mgr.orders)
    decreases k
  {
    hide FindsActive, Possible, Advance;
    if j < k {
      FinalReached(ws, ms, j, k - 1);
      HistoryMove(ws, ms, k - 1);
      StayFinishedOn(ws[j].desk.mgr.orders, ws[k - 1].desk.mgr.orders, ws[k].desk.mgr.orders);
    }
  }

  /**
   And a full match or a cancel is final, between any two states, if and only if every submit
   answer finds its order still active.
   */
  lemma FinalOverMock(ws: seq<World>, ms: seq<Move>)
    requires History(ws, ms)
    ensures (forall j, k :: 0 <= j <= k < |ws| ==> StayFinished(ws[j].desk.mgr.orders, ws[k].desk.mgr.orders))
       <==> (forall n :: 0 <= n < |ms| ==> FindsActive(ws[n], ms[n]))
  {
    hide StayFinished, FindsActive, Possible, Advance;
    if forall j, k :: 0 <= j <= k < |ws| ==> StayFinished(ws[j].desk.mgr.orders, ws[k].desk.mgr.orders) {
      forall n | 0 <= n < |ms|
        ensures FindsActive(ws[n], ms[n])
      {
        HistoryMove(ws, ms, n);
        assert StayFinished(ws[n].desk.mgr.orders, ws[n + 1].desk.mgr.orders);
      }
    }
    if forall n :: 0 <= n < |ms| ==> FindsActive(ws[n], ms[n]) {
      forall j, k | 0 <= j <= k < |ws|
        ensures StayFinished(ws[j].desk.mgr.orders, ws[k].desk.mgr.orders)
      {
        FinalReached(ws, ms, j, k);
      }
    }
  }

  // ------------------------------------------------------------- prompt answers

  /** No event of an order is handled while its submit answer is outstanding. */
  ghost predicate Prompt(w: World, m: Move)
    requires Possible(w, m)
  {
    var a := DeskAction(w, m);
    a.Some? && a.value.OrderArrives? ==> !At(w.desk, a.value.order.orderId, InFlight)
  }

  ghost predicate PromptHistory(ws: seq<World>, ms: seq<Move>) {
    History(ws, ms) && forall n :: 0 <= n < |ms| ==> Possible(ws[n], ms[n]) && Prompt(ws[n], ms[n])
  }

  /** An order is submitting as long as its answer is outstanding, and was never rejected. */
  ghost predicate Timely(submits: map<OrderId, SubmitStage>, o: Order) {
    && o.status != SubFailed
    && (o.status == Submitting ==> !o.isCancelling)
    && (o.id in submits && submits[o.id] == InFlight ==> o.status == Submitting)
  }

  ghost predicate AllTimely(d: Desk) {
    forall o :: o in d.mgr.orders ==> Timely(d.submits, o)
  }

  /** The answers and events that keep orders timely. */
  ghost predicate InTime(d: Desk, a: Action) {
    && (a.SubmitReturns? ==> a.ok)
    && (a.OrderArrives? ==> !At(d, a.order.orderId, InFlight))
  }

  lemma StepStaysTimely(o: Order, st: OrderStep, inFlight: bool)
    requires o.status != SubFailed && (o.status == Submitting <==> inFlight) && (inFlight ==> !o.isCancelling)
    requires st != SubmitFailed && (st.Feed? ==> !inFlight)
    requires st == CancelSuccess || st == CancelFailed ==> o.isCancelling
    ensures var p := Step(o, st);
            && p.status != SubFailed && (p.status == Submitting ==> !p.isCancelling) && p.id == o.id
            && (inFlight && st != SubmitSuccess ==> p.status == Submitting)
  {
  }

  lemma OrderStaysTimely(d: Desk, a: Action, o: Order, after: Order)
    requires Enabled(d, a) && Protocol(d) && InTime(d, a)
    requires o in d.mgr.orders && OrderFollows(d, a, o, after) && Timely(d.submits, o)
    requires Find(d.mgr.orders, o.id) < |d.mgr.orders| && d.mgr.orders[Find(d.mgr.orders, o.id)] == o
    ensures Timely(NextSubmits(d, a), after)
  {
    hide Step, OnOrderEvent, Find, FirstActive, CancelAnswerOf;
    assert OrderProtocol(d.submits, d.cancels, o);
    var step := StepOf(d, a);
    if step.Some? && step.value.0 == o.id {
      StepStaysTimely(o, step.value.1, At(d, o.id, InFlight));
    }
  }

  lemma StepKeepsTimely(d: Desk, a: Action)
    requires Enabled(d, a) && Protocol(d) && InTime(d, a) && AllTimely(d)
    ensures AllTimely(Act(d, a))
  {
    OrdersAfter(d, a);
    TimelyFollows(d, a, NextManager(d, a).orders);
  }

  lemma TimelyFollows(d: Desk, a: Action, after: seq<Order>)
    requires Enabled(d, a) && Protocol(d) && InTime(d, a) && AllTimely(d) && OrdersFollow(d, a, after)
    ensures forall o :: o in after ==> Timely(NextSubmits(d, a), o)
  {
    forall i | 0 <= i < |d.mgr.orders|
      ensures Timely(NextSubmits(d, a), after[i])
    {
      OneOrderFollows(d, a, after, i);
      FindUnique(d.mgr.orders, i);
      OrderStaysTimely(d, a, d.mgr.orders[i], after[i]);
    }
  }

  lemma MoveKeepsTimely(w: World, m: Move)
    requires Coherent(w) && Possible(w, m) && Prompt(w, m) && AllTimely(w.desk)
    ensures AllTimely(NextDesk(w, m))
  {
    hide Links, LogOk, Deliveries, EngineOk, Protocol, AllTimely;
    if DeskAction(w, m).Some? {
      AnswersAccept(w, m);
      StepKeepsTimely(w.desk, DeskAction(w, m).value);
    }
  }

  lemma {:induction false} TimelyReached(ws: seq<World>, ms: seq<Move>, k: nat)
    requires PromptHistory(ws, ms) && k < |ws|
    ensures AllTimely(ws[k].desk)
  {
    hide AllTimely, Begins, Coherent, Possible, Prompt, NextDesk;
    if k > 0 {
      TimelyReached(ws, ms, k - 1);
      CoherentReached(ws, ms, k - 1);
      assert Possible(ws[k - 1], ms[k - 1]) && Prompt(ws[k - 1], ms[k - 1]) && ws[k] == Advance(ws[k - 1], ms[k - 1]);
      MoveKeepsTimely(ws[k - 1], ms[k - 1]);
    } else {
      BeginsTimely(ws[0]);
    }
  }

  lemma BeginsTimely(w: World)
    requires Begins(w)
    ensures AllTimely(w.desk)
  {
  }

  /** As long as no order is reported before its answer is handled, every answer finds its order active. */
  lemma PromptFindsActive(ws: seq<World>, ms: seq<Move>, n: nat)
    requires PromptHistory(ws, ms) && n < |ms|
    ensures FindsActive(ws[n], ms[n])
  {
    hide Prompt, Begins;
    TimelyReached(ws, ms, n);
    assert Possible(ws[n], ms[n]);
    if ms[n].SubmitAnswered? && Tracks(ws[n].desk.mgr, ms[n].id) {
      var o := ws[n].desk.mgr.orders[Find(ws[n].desk.mgr.orders, ms[n].id)];
      assert o in ws[n].desk.mgr.orders && Timely(ws[n].desk.submits, o);
    }
  }
}
