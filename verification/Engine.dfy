/**
 The reconciler: from a desired position to at most one order or cancel.
 */
module Engine {
  import opened Domain
  import opened Manager
  import opened Orders
  import opened Rounding
  import opened Seqs

  /** No order is placed or replaced for less than 0.10 share. */
  const SHARES_GAP: Micro := 100_000
  /** Unforced orders of at least five shares rest in the book as maker orders. */
  const MAKER_THRESHOLD: Micro := 5_000_000
  const PRICE_GAP: real := 0.01

  datatype Desired = Desired(market: Market, token: Token, shares: real, bestBid: real, bestAsk: real, force: bool) {
    function Target(): Micro { Round(shares) }
  }

  /** What concrete runs ask for: a forced wish for `shares` of the first token, quoted 0.4 to 0.5. */
  function Wish(m: Market, shares: Micro): Desired {
    Desired(m, m.yesToken, shares as real, 0.4, 0.5, true)
  }

  /** The price of an order placed for a wish. */
  function Price(side: Side): real { if side == Buy then 0.5 + 0.01 else 0.4 - 0.01 }

  datatype Decision =
    | Nothing
    | Place(side: Side, role: Role, price: real, shares: Micro)
    | Withdraw(orderId: OrderId)

  function PickRole(force: bool, shares: Micro): Role {
    if !force && shares >= MAKER_THRESHOLD then Maker else Taker
  }

  function PickPrice(d: Desired, side: Side, shares: Micro): real {
    match (side, PickRole(d.force, shares))
    case (Buy, Maker) => d.bestAsk - 0.01
    case (Buy, Taker) => d.bestAsk + 0.01
    case (Sell, Maker) => d.bestBid + 0.01
    case (Sell, Taker) => d.bestBid - 0.01
  }

  function Abs(x: real): real { if x >= 0.0 then x else -x }

  function Reconcile(d: Desired, side: Side, shares: Micro, active: Option<Order>, aged: bool): Decision {
    if shares < SHARES_GAP then Nothing
    else match active
      case None => Place(side, PickRole(d.force, shares), PickPrice(d, side, shares), shares)
      case Some(o) =>
        if o.side != side then Withdraw(o.id)
        else if (d.force || !aged) && Abs(o.price - PickPrice(d, side, shares)) < PRICE_GAP then Nothing
        else Withdraw(o.id)
  }

  /** `aged` tells whether the active order has outlived the replacement interval. */
  function Decide(d: Desired, current: CurrentPosition, active: Option<Order>, aged: bool): Decision {
    var target, now := d.Target(), current.EffectiveShares();
    if target > now then
      Reconcile(d, Buy, target - now, active, aged)
    else if target < now then
      var shares :=
        if active == None || active.value.side == Sell then Min(now - target, current.SellableShares())
        else now - target;
      Reconcile(d, Sell, shares, active, aged)
    else if active.Some? then
      Reconcile(d, active.value.side, active.value.pending, active, aged)
    else Nothing
  }

  /** The decision the engine takes on a state of the manager. */
  function DecideOn(s: State, d: Desired, aged: bool): Decision {
    Decide(d, BuildPosition(s, d.token.id), ActiveOrder(s, d.token.id), aged)
  }

  /** What is missing to the target, negative when there is too much of it. */
  function Missing(s: State, d: Desired): Micro {
    var p := BuildPosition(s, d.token.id);
    Round(d.shares) - (p.opening + p.openSettling + p.holdingShares - p.closing - p.closeSettling)
  }

  /** What may be sold of what is held. */
  function Free(s: State, token: TokenId): Micro {
    var p := BuildPosition(s, token);
    Max(p.holdingShares - p.closing - p.closeSettling, 0)
  }

  /** The price that a new order of `shares` would have: an unforced order of five shares rests in the book. */
  function NewPrice(d: Desired, side: Side, shares: Micro): real {
    var rests := !d.force && shares >= 5_000_000;
    if side == Buy then d.bestAsk + (if rests then -0.01 else 0.01) else d.bestBid + (if rests then 0.01 else -0.01)
  }

  /**
   An active order on the side of what is missing is withdrawn if and only if 0.10 or more is to
   be done, and its time is up and the wish not forced, or its price is a cent or more away from
   that of a new order. On target its pending shares are what is to be done.
   */
  lemma ReplacedIff(s: State, d: Desired, aged: bool, o: Order, shares: Micro)
    requires ActiveOrder(s, d.token.id) == Some(o)
    requires var missing := Missing(s, d);
             if missing == 0 then shares == o.pending
             else if o.side == Buy then missing > 0 && shares == missing
             else missing < 0 && shares == Min(-missing, Free(s, d.token.id))
    ensures var away := o.price - NewPrice(d, o.side, shares);
            var stale := (aged && !d.force) || away >= 0.01 || away <= -0.01;
            DecideOn(s, d, aged) == if shares >= 100_000 && stale then Withdraw(o.id) else Nothing
  {
    hide BuildPosition, ActiveOrder;
  }

  /** An active order on the other side than what is missing is withdrawn, from 0.10 missing. */
  lemma WrongSideWithdrawn(s: State, d: Desired, aged: bool, o: Order)
    requires ActiveOrder(s, d.token.id) == Some(o)
    requires if o.side == Sell then Missing(s, d) > 0 else Missing(s, d) < 0
    ensures var missing := Missing(s, d);
            DecideOn(s, d, aged) == if missing >= 100_000 || missing <= -100_000 then Withdraw(o.id) else Nothing
  {
    hide BuildPosition, ActiveOrder;
  }

  /** Without an active order what is missing is ordered, as far as it may be sold, from 0.10 on. */
  lemma PlacedIff(s: State, d: Desired, aged: bool)
    requires ActiveOrder(s, d.token.id) == None
    ensures var missing := Missing(s, d);
            var side := if missing > 0 then Buy else Sell;
            var shares := if missing > 0 then missing else Min(-missing, Free(s, d.token.id));
            var role := if !d.force && shares >= 5_000_000 then Maker else Taker;
            DecideOn(s, d, aged) ==
            if shares >= 100_000 then Place(side, role, NewPrice(d, side, shares), shares) else Nothing
  {
    hide BuildPosition, ActiveOrder;
  }

  /** An order is placed only without an active one, for at least the gap, and towards the target. */
  lemma PlacesTowardsTarget(s: State, d: Desired, aged: bool)
    requires DecideOn(s, d, aged).Place?
    ensures var p, current := DecideOn(s, d, aged), BuildPosition(s, d.token.id);
            && ActiveOrder(s, d.token.id) == None
            && p.shares >= SHARES_GAP
            && (p.side == Buy ==> current.EffectiveShares() + p.shares == d.Target())
            && (p.side == Sell ==> p.shares <= current.SellableShares())
            && (p.side == Sell ==> current.EffectiveShares() - p.shares
                                   == Max(d.Target(), current.EffectiveShares() - current.SellableShares()))
  {
  }

  /** The manager after a decision is carried out: at most one order inserted or one cancel requested. */
  function Performed(s: State, d: Desired, decision: Decision, id: OrderId): State {
    match decision
    case Nothing => s
    case Place(side, role, price, shares) => Insert(s, NewOrder(id, d.market, d.token, side, role, price, shares))
    case Withdraw(orderId) => UpdateOrder(s, orderId, CancelRequest)
  }

  /** A placement is stored as it was decided: all of it pending, nothing matched, awaiting the answer of the client. */
  lemma PlacementStored(s: State, d: Desired, aged: bool, id: OrderId)
    requires DecideOn(s, d, aged).Place? && !Tracks(s, id)
    ensures var p, after := DecideOn(s, d, aged), Performed(s, d, DecideOn(s, d, aged), id);
            && after.trades == s.trades && after.positions == s.positions && |after.orders| == |s.orders| + 1
            && after.orders[..|s.orders|] == s.orders
            && var o := after.orders[|s.orders|];
               && o.id == id && o.market == d.market && o.token == d.token
               && o.side == p.side && o.role == p.role && o.price == p.price && o.shares == p.shares
               && o.status == Submitting && o.pending == p.shares && o.matched == 0 && o.invalid == 0
               && o.tradeIds == [] && !o.shouldCancel && !o.isCancelling
  {
    hide DecideOn;
  }

  /** The manager after one desired position, when nothing comes between decision and action. */
  function Handled(s: State, d: Desired, aged: bool, id: OrderId): State {
    Performed(s, d, DecideOn(s, d, aged), id)
  }

  /** Changing one record of another token, or adding one, is invisible in a token's snapshot. */
  lemma OtherTokenUnseen(s: State, t: State, i: nat, token: TokenId)
    requires t.trades == s.trades && t.positions == s.positions
    requires i < |t.orders| && t.orders[i].token.id != token
    requires if i < |s.orders| then |t.orders| == |s.orders| && s.orders[i].token.id != token
             else |t.orders| == |s.orders| + 1
    requires forall j :: 0 <= j < |s.orders| && j != i ==> t.orders[j] == s.orders[j]
    ensures BuildPosition(t, token) == BuildPosition(s, token) && ActiveOrder(t, token) == ActiveOrder(s, token)
  {
    OtherTokenSums(s, t, i, token, Buy);
    OtherTokenSums(s, t, i, token, Sell);
  }

  lemma OtherTokenSums(s: State, t: State, i: nat, token: TokenId, side: Side)
    requires t.trades == s.trades && i < |t.orders| && t.orders[i].token.id != token
    requires if i < |s.orders| then |t.orders| == |s.orders| && s.orders[i].token.id != token
             else |t.orders| == |s.orders| + 1
    requires forall j :: 0 <= j < |s.orders| && j != i ==> t.orders[j] == s.orders[j]
    ensures PendingShares(t, token, side) == PendingShares(s, token, side)
    ensures SettlingShares(t, token, side) == SettlingShares(s, token, side)
  {
    var pending, settling := PendingOf(token, side), SettlingOf(token, side, s.trades);
    if i < |s.orders| {
      SumSame(s.orders, t.orders, pending, pending);
      SumSame(s.orders, t.orders, settling, settling);
    } else {
      assert t.orders == s.orders + [t.orders[i]];
      SumAppend(s.orders, t.orders[i], pending);
      SumAppend(s.orders, t.orders[i], settling);
    }
  }

  /** Only the token's active order is ever withdrawn. */
  lemma WithdrawsActive(s: State, d: Desired, aged: bool)
    requires DecideOn(s, d, aged).Withdraw?
    ensures var i := FirstActive(s.orders, d.token.id);
            i < |s.orders| && DecideOn(s, d, aged).orderId == s.orders[i].id
  {
  }

  /** The two signals of a market do not disturb each other: handling one leaves the other's decision as it was. */
  lemma SignalsIndependent(s: State, up: Desired, down: Desired, aged: bool, downAged: bool, id: OrderId)
    requires up.token.id != down.token.id && UniqueIds(s.orders) && !Tracks(s, id)
    ensures DecideOn(Handled(s, up, aged, id), down, downAged) == DecideOn(s, down, downAged)
  {
    hide BuildPosition, ActiveOrder, Decide;
    var t := Handled(s, up, aged, id);
    var decision := DecideOn(s, up, aged);
    if decision.Place? {
      OtherTokenUnseen(s, t, |s.orders|, down.token.id);
    } else if decision.Withdraw? {
      WithdrawsActive(s, up, aged);
      var i := FirstActive(s.orders, up.token.id);
      FindUnique(s.orders, i);
      OtherTokenUnseen(s, t, i, down.token.id);
    }
  }

  lemma NoneActive(orders: seq<Order>, token: TokenId)
    requires forall o :: o in orders ==> !o.IsActive()
    ensures FirstActive(orders, token) == |orders|
  {
  }

  /** With no active order the engine takes what the snapshot leaves a wish. */
  lemma Decides(s: State, m: Market, want: Micro, side: Side, shares: Micro)
    requires forall o :: o in s.orders ==> !o.IsActive()
    requires shares >= SHARES_GAP
    requires var p := BuildPosition(s, m.yesToken.id);
             if side == Buy then shares == want - p.EffectiveShares()
             else want < p.EffectiveShares() && shares == Min(p.EffectiveShares() - want, p.SellableShares())
    ensures DecideOn(s, Wish(m, want), false) == Place(side, Taker, Price(side), shares)
  {
    hide BuildPosition;
    RoundWhole(want);
    NoneActive(s.orders, m.yesToken.id);
  }
}
