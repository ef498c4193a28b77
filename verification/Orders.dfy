/**
 The life of one managed order: submission, order-feed events and cancellation.

 `Order` is the value of one `ManagedOrder`; each function below is what one
 lock-protected block does to it.
 */
module Orders {
  import opened Domain
  import opened Positions
  import opened Rounding
  import opened Seqs

  datatype OrderStatus =
    | Submitting | SubFailed
    | ZeroMatched | PartMatched | FullMatched
    | ZeroMatchedCanceled | PartMatchedCanceled

  datatype Order = Order(
    id: OrderId, market: Market, token: Token, side: Side, role: Role, price: real, shares: Micro,
    status: OrderStatus, pending: Micro, matched: Micro, invalid: Micro,
    tradeIds: seq<TradeId>, shouldCancel: bool, isCancelling: bool)
  {
    predicate IsActive() {
      status == Submitting || status == ZeroMatched || status == PartMatched
    }

    predicate IsCanceled() {
      status == ZeroMatchedCanceled || status == PartMatchedCanceled
    }
  }

  function NewOrder(id: OrderId, market: Market, token: Token, side: Side, role: Role, price: real, shares: Micro): Order {
    Order(id, market, token, side, role, price, shares, Submitting, shares, 0, 0, [], false, false)
  }

  /** 0.98, the share of an order that counts as a full match. */
  predicate BelowFullMatch(matched: Micro, shares: Micro) {
    100 * matched < 98 * shares
  }

  function CanceledStatus(matched: Micro): OrderStatus {
    if matched == 0 then ZeroMatchedCanceled else PartMatchedCanceled
  }

  function LiveStatus(matched: Micro, pending: Micro, shares: Micro): OrderStatus {
    if matched == 0 then ZeroMatched
    else if BelowFullMatch(matched, shares) && pending > DUST then PartMatched
    else FullMatched
  }

  function Unfilled(shares: Micro, matched: Micro): Micro {
    if shares > matched then shares - matched else 0
  }

  predicate Addresses(o: Order, e: OrderEvent) {
    e.marketId == o.market.id && e.tokenId == o.token.id
  }

  function OnOrderEvent(o: Order, e: OrderEvent): Order {
    var matched := Max(o.matched, e.matchedShares);
    if !e.IsActive() || o.IsCanceled() then
      o.(matched := matched, invalid := Unfilled(o.shares, matched), pending := 0,
         status := CanceledStatus(matched))
    else
      var pending := Min(o.pending, e.UnmatchedShares());
      o.(matched := matched, pending := pending, invalid := 0,
         status := LiveStatus(matched, pending, o.shares))
  }

  function OnSubmitSuccess(o: Order): Order {
    o.(status := ZeroMatched)
  }

  function OnSubmitFailed(o: Order): Order {
    if o.shouldCancel then
      o.(invalid := o.pending, pending := 0, status := ZeroMatchedCanceled, shouldCancel := false)
    else
      o.(invalid := o.pending, pending := 0, status := SubFailed)
  }

  datatype CancelAnswer = NotTracked | NothingActive | Deferred | InProgress | Started

  /** How a cancel request is answered; only `Started` spawns a cancel worker. */
  function CancelAnswerOf(o: Order): CancelAnswer {
    if !o.IsActive() then NothingActive
    else if o.status == Submitting then Deferred
    else if o.isCancelling || o.shouldCancel then InProgress
    else Started
  }

  function OnCancelRequest(o: Order): Order {
    match CancelAnswerOf(o)
    case Deferred => o.(shouldCancel := true)
    case Started => o.(isCancelling := true)
    case _ => o
  }

  function OnCancelSuccess(o: Order): Order {
    o.(isCancelling := false, invalid := o.pending, pending := 0, status := CanceledStatus(o.matched))
  }

  function OnCancelFailed(o: Order): Order {
    o.(isCancelling := false)
  }

  /** Everything that can happen to a tracked order under the manager's lock. */
  datatype OrderStep =
    | Feed(event: OrderEvent)
    | SubmitSuccess | SubmitFailed
    | CancelRequest | ClearShouldCancel
    | CancelSuccess | CancelFailed

  function Step(o: Order, st: OrderStep): Order {
    match st
    case Feed(e) => if Addresses(o, e) then OnOrderEvent(o, e) else o
    case SubmitSuccess => OnSubmitSuccess(o)
    case SubmitFailed => OnSubmitFailed(o)
    case CancelRequest => OnCancelRequest(o)
    case ClearShouldCancel => o.(shouldCancel := false)
    case CancelSuccess => OnCancelSuccess(o)
    case CancelFailed => OnCancelFailed(o)
  }

  // ------------------------------------------------------------- field by field

  /**
   What an order event makes of any order, if it names the order's market and token. One that is neither live nor matched ends the
   order, and a canceled order stays so: nothing is pending and the rest is invalid. Otherwise
   the order is fully matched from 0.98 on, or when only dust is pending.
   */
  lemma EventOutcome(o: Order, e: OrderEvent)
    ensures var p, matched := OnOrderEvent(o, e), Max(o.matched, e.matchedShares);
            var ends := (e.status != Live && e.status != Matched)
                        || o.status == ZeroMatchedCanceled || o.status == PartMatchedCanceled;
            && Step(o, Feed(e)) == (if e.marketId == o.market.id && e.tokenId == o.token.id then p else o)
            && p == o.(matched := matched, pending := p.pending, invalid := p.invalid, status := p.status)
            && p.pending == (if ends then 0 else Min(o.pending, Max(e.shares - e.matchedShares, 0)))
            && p.invalid == (if ends then Max(o.shares - matched, 0) else 0)
            && p.status == (if matched == 0 then (if ends then ZeroMatchedCanceled else ZeroMatched)
                            else if ends then PartMatchedCanceled
                            else if 50 * matched < 49 * o.shares && p.pending > 10_000 then PartMatched else FullMatched)
  {
  }

  /**
   What the workers' answers make of an order. A failed submission with a deferred cancel is a
   canceled order; a success makes the order live whatever it was.
   */
  lemma WorkerAnswers(o: Order)
    ensures Step(o, SubmitSuccess) == o.(status := ZeroMatched)
    ensures Step(o, SubmitFailed) == o.(pending := 0, invalid := o.pending, shouldCancel := false,
                                        status := if o.shouldCancel then ZeroMatchedCanceled else SubFailed)
    ensures Step(o, CancelSuccess) == o.(pending := 0, invalid := o.pending, isCancelling := false,
                                         status := if o.matched == 0 then ZeroMatchedCanceled else PartMatchedCanceled)
    ensures Step(o, CancelFailed) == o.(isCancelling := false)
    ensures Step(o, ClearShouldCancel) == o.(shouldCancel := false)
  {
  }

  /** A cancel request is deferred while submitting, refused twice over, and started on a live order only. */
  lemma RequestAnswered(o: Order)
    ensures var answer, p := CancelAnswerOf(o), Step(o, CancelRequest);
            var live, asked := o.status == ZeroMatched || o.status == PartMatched, o.isCancelling || o.shouldCancel;
            && answer == (if o.status == Submitting then Deferred else if !live then NothingActive
                          else if asked then InProgress else Started)
            && p == o.(shouldCancel := o.shouldCancel || o.status == Submitting,
                       isCancelling := o.isCancelling || (live && !asked))
  {
  }

  /**
   After a failed submission an event makes the order active if and only if no cancel had been
   deferred and neither side has seen a match; after a successful cancel none does.
   */
  lemma FailedForGoodIff(o: Order, e: OrderEvent)
    requires o.matched >= 0
    ensures OnOrderEvent(Step(o, SubmitFailed), e).IsActive() <==>
            !o.shouldCancel && (e.status == Live || e.status == Matched) && o.matched == 0 && e.matchedShares <= 0
    ensures !OnOrderEvent(Step(o, CancelSuccess), e).IsActive()
  {
  }

  // -------------------------------------------------- pending / matched law

  /** Off-chain pending is either given up or exactly what the matches leave. */
  predicate PendingLaw(o: Order) {
    o.shares >= 0 && o.matched >= 0 && (o.pending == 0 || o.pending == Unfilled(o.shares, o.matched))
  }

  /** Pending only shrinks, matched only grows, and the identity of the order is fixed. */
  predicate Advances(before: Order, after: Order) {
    && after.pending <= before.pending
    && after.matched >= before.matched
    && after.shares == before.shares && after.side == before.side && after.token == before.token
    && after.market == before.market && after.id == before.id
  }

  /**
   Nothing is pending or will be, or the event leaves nothing unmatched, or it reports no new
   match and no less unmatched than is pending, or a new match and the order's own size.
   */
  predicate FitsPending(o: Order, e: OrderEvent) {
    || o.pending == 0 || o.IsCanceled() || !e.IsActive()
    || e.UnmatchedShares() == 0
    || (e.matchedShares <= o.matched && e.UnmatchedShares() >= o.pending)
    || (e.matchedShares > o.matched && e.shares == o.shares)
  }

  /** The size in the event matters: an event keeps the law if and only if it fits. */
  lemma EventKeepsPendingLawIff(o: Order, e: OrderEvent)
    requires PendingLaw(o)
    ensures PendingLaw(OnOrderEvent(o, e)) <==> FitsPending(o, e)
  {
  }

  /**
   Every step of an order keeps the law, except exactly an event that does not fit; and
   whatever the step, pending only shrinks and matched only grows.
   */
  lemma StepKeepsPendingLaw(o: Order, st: OrderStep)
    requires PendingLaw(o)
    ensures PendingLaw(Step(o, st)) <==> (st.Feed? && Addresses(o, st.event) ==> FitsPending(o, st.event))
    ensures Advances(o, Step(o, st))
  {
    if st.Feed? { EventKeepsPendingLawIff(o, st.event); }
  }

  /** Order events carry the size of the order they address. */
  predicate Sized(o: Order, st: OrderStep) {
    st.Feed? && Addresses(o, st.event) ==> st.event.shares == o.shares
  }

  /** Events of the order's size fit. */
  lemma SizedEventFits(o: Order, e: OrderEvent)
    requires PendingLaw(o) && e.shares == o.shares
    ensures FitsPending(o, e)
  {
  }

  /** Concretely: an event of two shares, 0.6 of them matched, on an order of one. */
  lemma WrongSizeBreaksPendingLaw()
    ensures var up := Token("up", "Up", "m");
            var order := NewOrder("o", Market("m", up, Token("dn", "Down", "m"), 0.0), up, Buy, Maker, 0.5, 1_000_000);
            var event := OrderEvent("m", "up", "o", Live, 2_000_000, Buy, 0.5, 600_000);
            PendingLaw(order) && Addresses(order, event) && !PendingLaw(OnOrderEvent(order, event))
  {
  }

  // ------------------------------------------------- the order feed is a join

  function FoldEvents(o: Order, es: seq<OrderEvent>): Order {
    if es == [] then o else OnOrderEvent(FoldEvents(o, es[..|es| - 1]), es[|es| - 1])
  }

  function MaxReport(es: seq<OrderEvent>): Micro {
    if es == [] then 0 else Max(MaxReport(es[..|es| - 1]), es[|es| - 1].matchedShares)
  }

  /** The order after events whose largest report is `matched`, one of them inactive when `canceled`. */
  function Joined(o: Order, matched: Micro, canceled: bool): Order {
    if canceled then
      o.(matched := matched, pending := 0, invalid := Unfilled(o.shares, matched),
         status := CanceledStatus(matched))
    else
      o.(matched := matched, pending := Unfilled(o.shares, matched), invalid := 0,
         status := LiveStatus(matched, Unfilled(o.shares, matched), o.shares))
  }

  /** A freshly submitted order, before any event of its feed. */
  predicate Fresh(o: Order) {
    && o.pending == o.shares >= 0 && o.matched == 0 && o.invalid == 0
    && (o.status == Submitting || o.status == ZeroMatched)
  }

  predicate OfSize(es: seq<OrderEvent>, shares: Micro) {
    forall e :: e in es ==> e.shares == shares
  }

  predicate SomeInactive(es: seq<OrderEvent>) {
    exists e :: e in es && !e.IsActive()
  }

  /** One event on a fresh or a joined order joins its report to what was there. */
  lemma JoinStep(o: Order, matched: Micro, canceled: bool, e: OrderEvent)
    requires Fresh(o) && e.shares == o.shares && matched >= 0
    ensures OnOrderEvent(Joined(o, matched, canceled), e)
         == Joined(o, Max(matched, e.matchedShares), canceled || !e.IsActive())
    ensures OnOrderEvent(o, e) == Joined(o, Max(0, e.matchedShares), !e.IsActive())
  {
  }

  lemma {:induction false} FoldIsJoin(o: Order, es: seq<OrderEvent>)
    requires Fresh(o) && OfSize(es, o.shares) && es != []
    ensures FoldEvents(o, es) == Joined(o, MaxReport(es), SomeInactive(es))
    ensures MaxReport(es) >= 0
  {
    hide OnOrderEvent, Joined;
    var n := |es| - 1;
    var rest, last := es[..n], es[n];
    JoinStep(o, Max(MaxReport(rest), 0), SomeInactive(rest), last);
    assert last in es && forall e :: e in es <==> e in rest || e == last;
    if rest == [] {
      assert FoldEvents(o, rest) == o && MaxReport(rest) == 0;
      assert FoldEvents(o, es) == OnOrderEvent(o, last);
      assert SomeInactive(es) <==> !last.IsActive();
    } else {
      FoldIsJoin(o, rest);
      assert SomeInactive(es) <==> SomeInactive(rest) || !last.IsActive();
    }
  }

  lemma {:induction false} MaxReportIsMax(es: seq<OrderEvent>)
    ensures MaxReport(es) >= 0
    ensures forall e :: e in es ==> e.matchedShares <= MaxReport(es)
    ensures MaxReport(es) == 0 || exists e :: e in es && e.matchedShares == MaxReport(es)
  {
    if es != [] {
      var n := |es| - 1;
      MaxReportIsMax(es[..n]);
      assert forall e :: e in es <==> e in es[..n] || e == es[n];
    }
  }

  /** Reordering or repeating the same events ends in the same order. */
  lemma SameEventsSameOrder(o: Order, es: seq<OrderEvent>, fs: seq<OrderEvent>)
    requires Fresh(o) && OfSize(es, o.shares)
    requires es != [] && forall e :: e in es <==> e in fs
    ensures FoldEvents(o, es) == FoldEvents(o, fs)
  {
    assert es[0] in fs;
    FoldIsJoin(o, es);
    FoldIsJoin(o, fs);
    MaxReportIsMax(es);
    MaxReportIsMax(fs);
  }

  /** What the status says after active events: whether anything, and whether nearly everything, was matched. */
  lemma StatusOfReports(o: Order, es: seq<OrderEvent>)
    requires Fresh(o) && o.shares > 0 && OfSize(es, o.shares) && es != [] && !SomeInactive(es)
    requires MaxReport(es) <= o.shares
    ensures var status, matched := FoldEvents(o, es).status, MaxReport(es);
            && (status == ZeroMatched <==> matched == 0)
            && (status == FullMatched <==> matched > 0 && (50 * matched >= 49 * o.shares || matched >= o.shares - DUST))
            && (status == PartMatched <==> 0 < matched < o.shares - DUST && 50 * matched < 49 * o.shares)
  {
    FoldIsJoin(o, es);
  }

  // ------------------------------------------------------------ reactivation

  /** What the status of every order says, whatever sizes its events carry. */
  predicate StatusLaw(o: Order) {
    && o.matched >= 0
    && (o.status == FullMatched ==> o.matched > 0 && (!BelowFullMatch(o.matched, o.shares) || o.pending <= DUST))
    && (o.IsCanceled() || o.status == SubFailed ==> o.pending == 0)
  }

  lemma EventKeepsStatusLaw(o: Order, e: OrderEvent)
    requires StatusLaw(o)
    ensures StatusLaw(OnOrderEvent(o, e))
  {
  }

  /**
   An order event revives a finished order if and only if its submission had
   failed and neither side has seen a match: such an order is not `IsCanceled`.
   */
  lemma EventRevives(o: Order, e: OrderEvent)
    requires StatusLaw(o) && !o.IsActive()
    ensures OnOrderEvent(o, e).IsActive() <==>
            o.status == SubFailed && e.IsActive() && o.matched == 0 && e.matchedShares <= 0
  {
  }
}
