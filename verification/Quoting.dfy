/**
 The engine's prices against the exchange's matching rule.
 */
module Quoting {
  import opened Domain
  import opened Engine
  import opened Manager
  import opened MockStore
  import opened MockStream

  /** The order the client creates for a placement. */
  function PlacedOrder(d: Desired, p: Decision, id: OrderId, now: int): MockOrder
    requires p.Place?
  {
    CreateOrder(id, d.token, p.side, p.role, p.shares, p.price, now)
  }

  /** The quote a desired position was computed from. */
  function QuoteOf(d: Desired): Quote { Quote(d.token.id, d.bestBid, d.bestAsk) }

  /** A taker order crosses the quote it was priced at and a maker order does not: it rests in the book. */
  lemma TakerCrossesMakerRests(s: State, d: Desired, aged: bool, id: OrderId, now: int)
    requires DecideOn(s, d, aged).Place?
    ensures var p := DecideOn(s, d, aged);
            var o := PlacedOrder(d, p, id, now);
            && (Crosses(o, QuoteOf(d)) <==> p.role == Taker)
            && (p.role == Taker <==> if p.side == Buy then d.bestAsk <= p.price else p.price <= d.bestBid)
            && !FilledBy(o, QuoteOf(d))
            && (p.role == Maker ==> Resting(o) && !Due(o, now + TAKER_FILL_DELAY))
            && (p.role == Taker ==> Due(o, now + TAKER_FILL_DELAY) && !Due(o, now + TAKER_FILL_DELAY - 1))
  {
    hide BuildPosition, ActiveOrder;
  }
}
