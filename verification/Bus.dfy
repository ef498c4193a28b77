/**
 The event bus: bounded queues with four overflow policies.
 */
module Bus {
  import opened Seqs

  datatype Overflow = Block | DropOldest | DropNewest | Raise

  /** A queue; a non-positive `maxsize` means it is unbounded. */
  datatype Queue<T> = Queue(maxsize: int, overflow: Overflow, items: seq<T>, dropped: nat) {
    predicate Full() { 0 < maxsize <= |items| }
  }

  /** How a delivery ends, and the queue it leaves. `Waiting` suspends the publisher until there is room. */
  datatype Delivery<T> = Done(queue: Queue<T>) | Waiting(queue: Queue<T>) | QueueFull(queue: Queue<T>)

  /** `put_nowait`: it raises on a full queue. */
  function PutNowait<T>(q: Queue<T>, x: T): Delivery<T> {
    if q.Full() then QueueFull(q) else Done(q.(items := q.items + [x]))
  }

  /** Makes room for one item, when there was just room for the others. */
  function DropHead<T>(q: Queue<T>): Queue<T> {
    if q.Full() then q.(items := q.items[1..], dropped := q.dropped + 1) else q
  }

  function Deliver<T>(q: Queue<T>, x: T): Delivery<T> {
    match q.overflow
    case Block => if q.Full() then Waiting(q) else PutNowait(q, x)
    case DropNewest =>
      var put := PutNowait(q, x);
      if put.QueueFull? then Done(q.(dropped := q.dropped + 1)) else put
    case DropOldest => PutNowait(DropHead(q), x)
    case Raise => PutNowait(q, x)
  }

  function Rest<T>(q: Queue<T>): Queue<T>
    requires q.items != []
  {
    q.(items := q.items[1..])
  }

  // --------------------------------------------------------------------- runs

  datatype Op<T> = Publish(x: T) | Get

  /** A queue with the log of what was published to it and what was taken from it. */
  datatype Channel<T> = Channel(queue: Queue<T>, published: seq<T>, delivered: seq<T>)

  /** A publish that waits or raises puts no item; a get on an empty queue waits. */
  function Operate<T>(c: Channel<T>, op: Op<T>): Channel<T> {
    match op
    case Publish(x) =>
      var d := Deliver(c.queue, x);
      Channel(d.queue, if d.Done? then c.published + [x] else c.published, c.delivered)
    case Get =>
      if c.queue.items == [] then c
      else Channel(Rest(c.queue), c.published, c.delivered + [c.queue.items[0]])
  }

  function Run<T>(c: Channel<T>, ops: seq<Op<T>>): Channel<T> {
    if ops == [] then c else Operate(Run(c, ops[..|ops| - 1]), ops[|ops| - 1])
  }

  ghost predicate Start<T>(c: Channel<T>) {
    c == Channel(Queue(c.queue.maxsize, c.queue.overflow, [], 0), [], [])
  }

  ghost predicate SameKind<T(!new)>(c: Channel<T>, r: Channel<T>) {
    r.queue.overflow == c.queue.overflow && r.queue.maxsize == c.queue.maxsize
  }

  /** `xs` is what remains of `ys` after deleting some elements. */
  ghost predicate Subsequence<T(!new)>(xs: seq<T>, ys: seq<T>) {
    if xs == [] then true
    else if ys == [] then false
    else
      var m, n := |xs| - 1, |ys| - 1;
      (xs[m] == ys[n] && Subsequence(xs[..m], ys[..n])) || Subsequence(xs, ys[..n])
  }

  lemma SubsequenceSkip<T(!new)>(xs: seq<T>, ys: seq<T>, y: T)
    requires Subsequence(xs, ys)
    ensures Subsequence(xs, ys + [y])
  {
    assert (ys + [y])[..|ys|] == ys;
  }

  lemma SubsequenceKeep<T(!new)>(xs: seq<T>, ys: seq<T>, y: T)
    requires Subsequence(xs, ys)
    ensures Subsequence(xs + [y], ys + [y])
  {
    assert (ys + [y])[..|ys|] == ys && (xs + [y])[..|xs|] == xs;
  }

  /** A blocking queue loses nothing and keeps the order. */
  lemma {:induction false} BlockIsLossless<T(!new)>(c: Channel<T>, ops: seq<Op<T>>)
    requires Start(c) && c.queue.overflow == Block
    ensures var r := Run(c, ops);
            && r.published == r.delivered + r.queue.items
            && r.queue.dropped == 0 && SameKind(c, r)
            && (r.queue.maxsize > 0 ==> |r.queue.items| <= r.queue.maxsize)
  {
    if ops != [] {
      BlockIsLossless(c, ops[..|ops| - 1]);
    }
  }

  ghost predicate NewestKept<T(!new)>(c: Channel<T>) {
    var cut := |c.published| - |c.queue.items|;
    && 0 <= cut
    && c.queue.items == c.published[cut..]
    && Subsequence(c.delivered, c.published[..cut])
    && |c.published| == |c.delivered| + |c.queue.items| + c.queue.dropped
    && (c.queue.maxsize > 0 ==> |c.queue.items| <= c.queue.maxsize)
  }

  lemma PublishKeepsNewest<T(!new)>(c: Channel<T>, x: T)
    requires NewestKept(c) && c.queue.overflow == DropOldest
    ensures NewestKept(Operate(c, Publish(x)))
  {
    hide Subsequence, Deliver;
    RoomDecides(c.queue, x);
    var cut := |c.published| - |c.queue.items|;
    var longer := c.published + [x];
    assert longer[..cut] == c.published[..cut];
    assert longer[cut..] == c.queue.items + [x];
    if c.queue.Full() {
      assert longer[..cut + 1] == longer[..cut] + [longer[cut]];
      assert longer[cut + 1..] == c.queue.items[1..] + [x];
      SubsequenceSkip(c.delivered, c.published[..cut], longer[cut]);
    }
  }

  lemma GetKeepsNewest<T(!new)>(c: Channel<T>)
    requires NewestKept(c)
    ensures NewestKept(Operate(c, Get))
  {
    hide Subsequence;
    var cut := |c.published| - |c.queue.items|;
    if c.queue.items != [] {
      assert c.published[..cut + 1] == c.published[..cut] + [c.queue.items[0]];
      SubsequenceKeep(c.delivered, c.published[..cut], c.queue.items[0]);
    }
  }

  /**
   A drop-oldest queue holds the newest items of the log, at most `maxsize` of them;
   what it delivered is an ordered part of the rest, and every item is accounted for.
   */
  lemma {:induction false} DropOldestKeepsNewest<T(!new)>(c: Channel<T>, ops: seq<Op<T>>)
    requires Start(c) && c.queue.overflow == DropOldest
    ensures NewestKept(Run(c, ops)) && SameKind(c, Run(c, ops))
  {
    if ops != [] {
      DropOldestKeepsNewest(c, ops[..|ops| - 1]);
      match ops[|ops| - 1]
      case Publish(x) => PublishKeepsNewest(Run(c, ops[..|ops| - 1]), x);
      case Get => GetKeepsNewest(Run(c, ops[..|ops| - 1]));
    }
  }

  /** The put after the drop raises if and only if the queue was over its bound: one drop is then not enough. */
  lemma DropOldestFailsIff<T>(q: Queue<T>, x: T)
    requires q.overflow == DropOldest
    ensures Deliver(q, x).QueueFull? <==> 0 < q.maxsize < |q.items|
    ensures !Deliver(q, x).Waiting?
  {
  }

  /** Over runs it never raises: every item published is put, as the last of the queue. */
  lemma DropOldestNeverFails<T(!new)>(c: Channel<T>, ops: seq<Op<T>>, x: T)
    requires Start(c) && c.queue.overflow == DropOldest
    ensures var before, after := Run(c, ops), Run(c, ops + [Publish(x)]);
            && Deliver(before.queue, x).Done?
            && after.published == before.published + [x]
            && after.queue.items != [] && after.queue.items[|after.queue.items| - 1] == x
  {
    assert (ops + [Publish(x)])[..|ops|] == ops;
    DropOldestKeepsNewest(c, ops);
    DropOldestFailsIff(Run(c, ops).queue, x);
  }

  ghost predicate OrderKept<T(!new)>(c: Channel<T>) {
    && Subsequence(c.delivered + c.queue.items, c.published)
    && |c.published| == |c.delivered| + |c.queue.items| + c.queue.dropped
  }

  lemma StepKeepsOrder<T(!new)>(c: Channel<T>, op: Op<T>)
    requires OrderKept(c) && c.queue.overflow == DropNewest
    ensures OrderKept(Operate(c, op))
  {
    hide Subsequence;
    var kept := c.delivered + c.queue.items;
    match op
    case Publish(x) =>
      if c.queue.Full() {
        SubsequenceSkip(kept, c.published, x);
      } else {
        assert c.delivered + (c.queue.items + [x]) == kept + [x];
        SubsequenceKeep(kept, c.published, x);
      }
    case Get =>
      if c.queue.items != [] {
        assert (c.delivered + [c.queue.items[0]]) + c.queue.items[1..] == kept;
      }
  }

  /** A drop-newest queue delivers an ordered part of the log, and every item is accounted for. */
  lemma {:induction false} DropNewestKeepsOrder<T(!new)>(c: Channel<T>, ops: seq<Op<T>>)
    requires Start(c) && c.queue.overflow == DropNewest
    ensures OrderKept(Run(c, ops)) && SameKind(c, Run(c, ops))
  {
    if ops != [] {
      DropNewestKeepsOrder(c, ops[..|ops| - 1]);
      StepKeepsOrder(Run(c, ops[..|ops| - 1]), ops[|ops| - 1]);
    }
  }

  // ------------------------------------------------------------- when it is full

  /**
   Only a queue that holds `maxsize > 0` items turns anything away: with room every policy puts
   the item last and counts no drop. A full queue makes a blocking publisher wait and raises for
   a raising one; drop-newest refuses the item, and drop-oldest gives up its head for it.
   */
  lemma RoomDecides<T>(q: Queue<T>, x: T)
    requires q.maxsize > 0 ==> |q.items| <= q.maxsize
    ensures var r := Deliver(q, x);
            if q.maxsize <= 0 || |q.items| < q.maxsize then r == Done(q.(items := q.items + [x])) else
            match q.overflow
            case Block => r == Waiting(q)
            case Raise => r == QueueFull(q)
            case DropNewest => r == Done(q.(dropped := q.dropped + 1))
            case DropOldest => r == Done(q.(items := q.items[1..] + [x], dropped := q.dropped + 1))
  {
  }

  /** How many of `n` items a queue of this size holds when none is taken. */
  function HeldOf(maxsize: int, n: nat): nat { if maxsize > 0 then Min(maxsize, n) else n }

  function PublishAll<T>(xs: seq<T>): seq<Op<T>> { seq(|xs|, i requires 0 <= i < |xs| => Publish(xs[i])) }

  lemma RunPublishes<T(!new)>(c: Channel<T>, xs: seq<T>)
    requires xs != []
    ensures Run(c, PublishAll(xs)) == Operate(Run(c, PublishAll(xs[..|xs| - 1])), Publish(xs[|xs| - 1]))
  {
    assert PublishAll(xs)[..|xs| - 1] == PublishAll(xs[..|xs| - 1]);
  }

  /** One more publish to a queue that holds `held` items from `cut` on of what was published. */
  lemma OneMorePublished<T(!new)>(c: Channel<T>, xs: seq<T>, cut: nat, held: nat, before: Channel<T>)
    requires xs != [] && cut + held < |xs| && held == HeldOf(c.queue.maxsize, |xs| - 1)
    requires before == Channel(c.queue.(items := xs[cut..cut + held], dropped := |xs| - 1 - held), xs[..|xs| - 1], [])
    requires c.queue.overflow == DropOldest || c.queue.overflow == DropNewest
    ensures var room, after := HeldOf(c.queue.maxsize, |xs|) > held, Operate(before, Publish(xs[|xs| - 1]));
            && after.published == xs && after.delivered == []
            && after.queue == c.queue.(items := after.queue.items, dropped := |xs| - HeldOf(c.queue.maxsize, |xs|))
            && after.queue.items ==
               (if room then xs[cut..cut + held] + [xs[|xs| - 1]]
                else if c.queue.overflow == DropNewest then xs[cut..cut + held]
                else xs[cut..cut + held][1..] + [xs[|xs| - 1]])
  {
    hide Deliver;
    RoomDecides(before.queue, xs[|xs| - 1]);
    assert xs[..|xs| - 1] + [xs[|xs| - 1]] == xs;
  }

  lemma HeldGrows(maxsize: int, n: nat)
    ensures var held, next := HeldOf(maxsize, n), HeldOf(maxsize, n + 1);
            held <= n && (next == held + 1 || (next == held && held > 0))
  {
  }

  lemma WindowMoves<T>(xs: seq<T>, cut: nat, held: nat)
    requires cut + held + 1 == |xs|
    ensures var window, last := xs[cut..cut + held], xs[|xs| - 1];
            && xs[..|xs| - 1][cut..] == window
            && window + [last] == xs[cut..]
            && (held > 0 ==> window[1..] + [last] == xs[cut + 1..])
  {
  }

  /** Without takes a drop-oldest queue holds exactly the last items published, as many as fit. */
  lemma {:induction false} HoldsTheNewest<T(!new)>(c: Channel<T>, xs: seq<T>)
    requires Start(c) && c.queue.overflow == DropOldest
    ensures var held := HeldOf(c.queue.maxsize, |xs|);
            Run(c, PublishAll(xs)) == Channel(c.queue.(items := xs[|xs| - held..], dropped := |xs| - held), xs, [])
  {
    if xs != [] {
      hide Operate, PublishAll, Run, HeldOf;
      var n := |xs| - 1;
      var held := HeldOf(c.queue.maxsize, n);
      HeldGrows(c.queue.maxsize, n);
      var cut := n - held;
      HoldsTheNewest(c, xs[..n]);
      RunPublishes(c, xs);
      WindowMoves(xs, cut, held);
      OneMorePublished(c, xs, cut, held, Run(c, PublishAll(xs[..n])));
    } else {
      RunOfNone(c);
    }
  }

  /** Without takes a drop-newest queue holds exactly the first items published, as many as fit. */
  lemma {:induction false} HoldsTheFirst<T(!new)>(c: Channel<T>, xs: seq<T>)
    requires Start(c) && c.queue.overflow == DropNewest
    ensures var held := HeldOf(c.queue.maxsize, |xs|);
            Run(c, PublishAll(xs)) == Channel(c.queue.(items := xs[..held], dropped := |xs| - held), xs, [])
  {
    if xs != [] {
      hide Operate, PublishAll, Run;
      var n := |xs| - 1;
      var held := HeldOf(c.queue.maxsize, n);
      HoldsTheFirst(c, xs[..n]);
      RunPublishes(c, xs);
      assert xs[..n][..held] == xs[0..held];
      OneMorePublished(c, xs, 0, held, Run(c, PublishAll(xs[..n])));
      if held == n { assert xs[0..held] + [xs[n]] == xs[..n + 1]; }
    } else {
      RunOfNone(c);
    }
  }

  lemma RunOfNone<T(!new)>(c: Channel<T>)
    requires Start(c)
    ensures Run(c, PublishAll([])) == Channel(c.queue, [], []) && c.queue.items == [] && c.queue.dropped == 0
  {
  }

  lemma {:induction false} WithinBound<T(!new)>(c: Channel<T>, ops: seq<Op<T>>)
    requires Start(c)
    ensures SameKind(c, Run(c, ops)) && (c.queue.maxsize > 0 ==> |Run(c, ops).queue.items| <= c.queue.maxsize)
  {
    if ops != [] {
      var n := |ops| - 1;
      WithinBound(c, ops[..n]);
      if ops[n].Publish? { RoomDecides(Run(c, ops[..n]).queue, ops[n].x); }
    }
  }

  /** Over runs of publishes and takes a publish costs an item if and only if the queue was full and is one that drops. */
  lemma DropsIff<T(!new)>(c: Channel<T>, ops: seq<Op<T>>, x: T)
    requires Start(c)
    ensures var before, after := Run(c, ops).queue, Run(c, ops + [Publish(x)]).queue;
            var full, drops := c.queue.maxsize > 0 && |before.items| == c.queue.maxsize,
                               c.queue.overflow == DropOldest || c.queue.overflow == DropNewest;
            && after.dropped == before.dropped + (if full && drops then 1 else 0)
            && |after.items| == |before.items| + (if full then 0 else 1)
  {
    assert (ops + [Publish(x)])[..|ops|] == ops;
    WithinBound(c, ops);
    RoomDecides(Run(c, ops).queue, x);
  }

  // ------------------------------------------------------------------ the bus

  /** One subscriber's queue, updated in place. */
  class Subscription<T> {
    const accepts: T -> bool
    const maxsize: int
    const overflow: Overflow
    var items: seq<T>
    var droppedCount: nat

    constructor (accepts: T -> bool, maxsize: int, overflow: Overflow)
      ensures Valid() && View() == Queue(maxsize, overflow, [], 0) && this.accepts == accepts
    {
      this.accepts, this.maxsize, this.overflow := accepts, maxsize, overflow;
      items, droppedCount := [], 0;
    }

    function View(): Queue<T>
      reads this
    {
      Queue(maxsize, overflow, items, droppedCount)
    }

    /** The queue is within its bound. */
    ghost predicate Valid()
      reads this
    {
      0 < maxsize ==> |items| <= maxsize
    }

    method TryPut(event: T) returns (ok: bool)
      modifies this`items
      ensures ok == PutNowait(old(View()), event).Done?
      ensures View() == PutNowait(old(View()), event).queue
    {
      ok := !View().Full();
      if ok { items := items + [event]; }
    }

    /** Delivers one event as the overflow policy says; `Waiting` changes nothing. */
    method Offer(event: T) returns (outcome: Delivery<T>)
      modifies this
      ensures outcome == Deliver(old(View()), event) && View() == outcome.queue
      ensures old(Valid()) ==> Valid()
    {
      var ok := true;
      if overflow == Block {
        if View().Full() { return Waiting(View()); }
        ok := TryPut(event);
      } else if overflow == DropNewest {
        ok := TryPut(event);
        if !ok {
          droppedCount := droppedCount + 1;
          ok := true;
        }
      } else if overflow == DropOldest {
        if View().Full() {
          items := items[1..];
          droppedCount := droppedCount + 1;
        }
        ok := TryPut(event);
      } else {
        ok := TryPut(event);
      }
      outcome := if ok then Done(View()) else QueueFull(View());
    }

    method Next() returns (event: T)
      requires items != []
      modifies this
      ensures event == old(items)[0] && View() == Rest(old(View()))
      ensures old(Valid()) ==> Valid()
    {
      event := items[0];
      items := items[1..];
    }
  }

  /** What delivering to a subscriber leaves in its queue. */
  function After<T>(q: Queue<T>, event: T, matches: bool): Queue<T> {
    if matches then Deliver(q, event).queue else q
  }

  class EventBus<T> {
    var subscriptions: seq<Subscription<T>>

    constructor ()
      ensures subscriptions == []
    {
      subscriptions := [];
    }

    /** The subscriptions are different objects, and every queue is within its bound. */
    ghost predicate Valid()
      reads this, subscriptions
    {
      && (forall i, j :: 0 <= i < j < |subscriptions| ==> subscriptions[i] != subscriptions[j])
      && (forall i :: 0 <= i < |subscriptions| ==> subscriptions[i].Valid())
    }

    method Subscribe(accepts: T -> bool, maxsize: int, overflow: Overflow) returns (s: Subscription<T>)
      requires Valid()
      modifies this
      ensures Valid() && fresh(s) && subscriptions == old(subscriptions) + [s]
      ensures s.View() == Queue(maxsize, overflow, [], 0) && s.accepts == accepts
    {
      s := new Subscription(accepts, maxsize, overflow);
      subscriptions := subscriptions + [s];
    }

    /**
     Publishes to the subscribers from `start` on. Every subscriber before `stop`
     that matches has had its delivery; `stop` is short of the end only at a full
     blocking queue, where the publisher waits, or at a full raising one, never at
     one that drops: no queue is ever over its bound.
     */
    method Publish(event: T, start: nat) returns (stop: nat, raised: bool)
      requires Valid() && start <= |subscriptions|
      modifies subscriptions
      ensures Valid() && start <= stop <= |subscriptions|
      ensures forall i :: 0 <= i < |subscriptions| ==>
        subscriptions[i].View() ==
        After(old(subscriptions[i].View()), event, start <= i < stop && subscriptions[i].accepts(event))
      ensures stop < |subscriptions| ==>
                && subscriptions[stop].accepts(event)
                && old(subscriptions[stop].View()).Full()
                && subscriptions[stop].overflow == (if raised then Raise else Block)
    {
      stop, raised := start, false;
      while stop < |subscriptions|
        invariant start <= stop <= |subscriptions| && !raised && Valid()
        invariant forall i :: 0 <= i < |subscriptions| ==>
          subscriptions[i].View() ==
          After(old(subscriptions[i].View()), event, start <= i < stop && subscriptions[i].accepts(event))
      {
        if subscriptions[stop].accepts(event) {
          var outcome := subscriptions[stop].Offer(event);
          if !outcome.Done? {
            raised := outcome.QueueFull?;
            return;
          }
        }
        stop := stop + 1;
      }
    }
  }
}
