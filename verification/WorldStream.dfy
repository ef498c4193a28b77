/**
 Histories the mock stream can produce: its delays and prices, its polls, and a clock that
 does not run backwards. The other histories of `World` allow more.
 */
module WorldStream {
  import opened MockStore
  import opened MockStream
  import opened World

  predicate IsTimed(m: Move) { m.StoreSubmits? || m.Matches? || m.Mines? }

  /** The time of the last move that reads the clock. */
  function Clock(ms: seq<Move>): int {
    if ms == [] then 0 else ClockAfter(Clock(ms[..|ms| - 1]), ms[|ms| - 1])
  }

  function ClockAfter(clock: int, m: Move): int {
    if IsTimed(m) then m.now else clock
  }

  /** The last move is not inside a poll. */
  predicate BetweenPolls(past: seq<Move>) {
    past != [] ==> !past[|past| - 1].Matches? && !past[|past| - 1].Mines?
  }

  ghost predicate NoneDue(st: Store, now: int) {
    forall id :: id in st.orders ==> !Due(st.orders[id], now)
  }

  /**
   The stream matches a taker order once it is due and a maker order while it rests, at the
   order's own price and with its settlement delay. A poll is one block: it matches all due
   orders, promotes the due trades and drains.
   */
  ghost predicate AsStreamed(w: World, past: seq<Move>, m: Move) {
    && (IsTimed(m) ==> Clock(past) <= m.now)
    && (m.Matches? ==>
          && m.id in w.store.orders && m.price == w.store.orders[m.id].price && m.delay == SETTLE_DELAY
          && (Due(w.store.orders[m.id], m.now) || Resting(w.store.orders[m.id])))
    && (m.Mines? ==> NoneDue(w.store, m.now))
    && (m == Drains <==> past != [] && past[|past| - 1].Mines?)
    && (past != [] && past[|past| - 1].Matches? ==> m.Matches? || m.Mines?)
  }

  ghost predicate Streamed(ws: seq<World>, ms: seq<Move>) {
    History(ws, ms) && forall i :: 0 <= i < |ms| ==> AsStreamed(ws[i], ms[..i], ms[i])
  }

  lemma StreamedOn(ws: seq<World>, ms: seq<Move>, m: Move, next: World)
    requires Streamed(ws, ms) && Possible(ws[|ms|], m) && Advance(ws[|ms|], m) == next && AsStreamed(ws[|ms|], ms, m)
    ensures Streamed(ws + [next], ms + [m]) && Clock(ms + [m]) == ClockAfter(Clock(ms), m)
  {
    hide Possible, Advance, Begins, AsStreamed;
    assert (ms + [m])[..|ms|] == ms;
    forall i | 0 <= i < |ms + [m]|
      ensures AsStreamed((ws + [next])[i], (ms + [m])[..i], (ms + [m])[i])
    {
      if i < |ms| { assert (ms + [m])[..i] == ms[..i]; }
    }
  }
}
