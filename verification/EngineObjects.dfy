/**
 The execution engine acting on the order manager.

 The engine takes the manager's lock twice for a desired position. `DecideNow` and
 `Perform` are the two halves, and everything else may happen between them; they are the
 engine's actions in `Desk`.
 */
module EngineObjects {
  import opened Domain
  import opened Engine
  import opened Manager
  import opened ManagerObjects
  import opened Rounding
  import opened Seqs

  class ExecutionEngine {
    const manager: OrderManager

    constructor (manager: OrderManager)
      ensures this.manager == manager
    {
      this.manager := manager;
    }

    /** Reads the manager under its lock and decides; the rest of the method runs later. */
    method DecideNow(d: Desired, aged: bool) returns (decision: Decision)
      requires manager.Valid()
      ensures decision == DecideOn(manager.model, d, aged)
    {
      hide OrderManager.Valid, BuildPosition, Reconcile;
      var current, active := manager.GetPositionByToken(d.token.id);
      var target, now := d.Target(), current.EffectiveShares();
      if target > now {
        decision := ReconcileOrder(d, Buy, target - now, active, aged);
      } else if target < now {
        var shares := now - target;
        if active == null || active.side == Sell {
          shares := Min(shares, current.SellableShares());
        }
        decision := ReconcileOrder(d, Sell, shares, active, aged);
      } else if active != null {
        decision := ReconcileOrder(d, active.side, active.pending, active, aged);
      } else {
        decision := Nothing;
      }
    }

    method ReconcileOrder(d: Desired, side: Side, shares: Micro, active: ManagedOrder?, aged: bool)
      returns (decision: Decision)
      ensures decision == Reconcile(d, side, shares, if active == null then None else Some(active.Value()), aged)
    {
      if shares < SHARES_GAP { return Nothing; }
      if active == null {
        return Place(side, PickRole(d.force, shares), PickPrice(d, side, shares), shares);
      }
      if active.side != side { return Withdraw(active.id); }
      var priceMoved := Abs(active.price - PickPrice(d, side, shares)) >= PRICE_GAP;
      if !(!d.force && aged) && !priceMoved { return Nothing; }
      return Withdraw(active.id);
    }

    /**
     Carries a decision out on the manager as it is by then; anything may have happened to it
     in between. `id` is the id the client gives a new order.
     */
    method Perform(d: Desired, decision: Decision, id: OrderId)
      requires manager.Valid()
      modifies manager, manager.orders.Values
      ensures manager.Valid() && manager.model == Performed(old(manager.model), d, decision, id)
      ensures fresh(manager.orders.Values - old(manager.orders.Values))
    {
      hide OrderManager.Valid, Insert, UpdateOrder;
      match decision {
        case Nothing =>
        case Place(side, role, price, shares) =>
          manager.InsertOrder(id, d.market, d.token, side, role, price, shares);
        case Withdraw(orderId) =>
          var _ := manager.Cancel(orderId);
      }
    }

    /** Decision and action with nothing in between. */
    method HandleDesired(d: Desired, aged: bool, id: OrderId)
      requires manager.Valid()
      modifies manager, manager.orders.Values
      ensures manager.Valid() && manager.model == Handled(old(manager.model), d, aged, id)
      ensures fresh(manager.orders.Values - old(manager.orders.Values))
    {
      var decision := DecideNow(d, aged);
      Perform(d, decision, id);
    }

    /** The two signals of a market, one after the other. */
    method HandleDesiredPositions(up: Desired, down: Desired, upAged: bool, downAged: bool, upId: OrderId, downId: OrderId)
      requires manager.Valid()
      modifies manager, manager.orders.Values
      ensures manager.Valid()
      ensures manager.model == Handled(Handled(old(manager.model), up, upAged, upId), down, downAged, downId)
    {
      HandleDesired(up, upAged, upId);
      HandleDesired(down, downAged, downId);
    }
  }
}
