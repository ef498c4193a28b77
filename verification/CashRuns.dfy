/**
 Cash over whole runs: what the books have paid and received for a token against shares
 times price of the fills, with the taker fees.
 */
module CashRuns {
  import opened Desk
  import opened Domain
  import opened Fees
  import opened Ledger
  import opened Manager
  import opened PositionRuns
  import opened Positions
  import opened Rounding

  /**
   The event makes a success of a trade that was none, and names a tracked order. A trade
   counts for the token and the side of its first report.
   */
  ghost predicate FirstSuccess(d: Desk, e: TradeEvent, token: TokenId, side: Side) {
    && Known(d.mgr, e)
    && (e.status == Mined || e.status == Confirmed)
    && if e.tradeId !in d.mgr.trades then e.tokenId == token && e.side == side else
       var t := d.mgr.trades[e.tradeId];
       t.status != TradeSuccess && t.tokenId == token && t.side == side
  }

  /** Exact cash of some fills, their number, and how many of them had a fee cut in either direction. */
  datatype Tally = Tally(exact: real, fills: nat, more: nat, less: nat)

  /** One more fill. The fee is cut towards zero: a buyer pays less than the exact fee and a seller gets more. */
  function Tallied(t: Tally, feeRate: real, e: TradeEvent): Tally {
    if e.role == Maker then Counted(t, Gross(e), false, false)
    else WithFee(t, Gross(e), ExactFee(feeRate, e), e.side)
  }

  function Gross(e: TradeEvent): real {
    e.shares as real * e.price
  }

  function ExactFee(feeRate: real, e: TradeEvent): real {
    feeRate * e.shares as real * e.price * (1.0 - e.price)
  }

  function WithFee(t: Tally, gross: real, fee: real, side: Side): Tally {
    var more := if fee >= 0.0 then side == Sell else side == Buy;
    Counted(t, if side == Buy then gross + fee else gross - fee, more, !more)
  }

  function Counted(t: Tally, exact: real, more: bool, less: bool): Tally {
    Tally(t.exact + exact, t.fills + 1, t.more + (if more then 1 else 0), t.less + (if less then 1 else 0))
  }

  /** The fills among the first `k` actions. */
  ghost function FillsOf(ds: seq<Desk>, acts: seq<Action>, k: nat, token: TokenId, side: Side): Tally
    requires k <= |ds| && k <= |acts|
  {
    if k == 0 then Tally(0.0, 0, 0, 0) else
    var before := FillsOf(ds, acts, k - 1, token, side);
    if acts[k - 1].TradeArrives? && FirstSuccess(ds[k - 1], acts[k - 1].trade, token, side)
    then Tallied(before, ds[k - 1].market.feeRate, acts[k - 1].trade)
    else before
  }

  predicate Within(cash: Micro, t: Tally) {
    var gap := cash as real - t.exact;
    -(0.5 * t.fills as real + 10.0 * t.less as real) <= gap <= 0.5 * t.fills as real + 10.0 * t.more as real
  }

  lemma WithinCounted(cash: Micro, t: Tally, fill: Micro, exact: real, more: bool, less: bool)
    requires Within(cash, t)
    requires -0.5 - (if less then 10.0 else 0.0) <= fill as real - exact <= 0.5 + (if more then 10.0 else 0.0)
    ensures Within(cash + fill, Counted(t, exact, more, less))
  {
  }

  lemma WithinWithFee(cash: Micro, t: Tally, maker: Micro, cost: Micro, gross: real, fee: real, side: Side)
    requires Within(cash, t) && -0.5 <= gross - maker as real <= 0.5
    requires fee >= 0.0 ==> cost as real <= fee < cost as real + 10.0
    requires fee < 0.0 ==> cost as real - 10.0 < fee <= cost as real
    ensures Within(cash + (if side == Buy then maker + cost else maker - cost), WithFee(t, gross, fee, side))
  {
  }

  lemma FeeCut(m: Market, e: TradeEvent)
    ensures var cost, fee := TakerCost(m, e.side, e.shares, e.price) as real, ExactFee(m.feeRate, e);
            if fee >= 0.0 then cost <= fee < cost + 10.0 else cost - 10.0 < fee <= cost
  {
    hide TakerCost;
    TakerCash(m, e.side, e.shares, e.price, ExactFee(m.feeRate, e));
  }

  lemma GrossCash(m: Market, e: TradeEvent)
    ensures -0.5 <= Gross(e) - CashAmount(m, e.side, Maker, e.shares, e.price) as real <= 0.5
  {
    MakerCash(m, e.side, e.shares, e.price);
  }

  lemma CashOfFill(cash: Micro, t: Tally, m: Market, e: TradeEvent)
    requires Within(cash, t)
    ensures Within(cash + CashAmount(m, e.side, e.role, e.shares, e.price), Tallied(t, m.feeRate, e))
  {
    hide CashAmount, Within, Counted, WithFee, ExactFee, Gross;
    var maker, cost := CashAmount(m, e.side, Maker, e.shares, e.price), TakerCost(m, e.side, e.shares, e.price);
    GrossCash(m, e);
    if e.role == Maker {
      WithinCounted(cash, t, maker, Gross(e), false, false);
    } else {
      FeeCut(m, e);
      WithinWithFee(cash, t, maker, cost, Gross(e), ExactFee(m.feeRate, e), e.side);
    }
  }

  lemma PostCash(a: Account, p: Posting)
    ensures Post(a, p).books.buyCash == a.books.buyCash + (if p.Fill? && p.side == Buy then p.amount else 0)
    ensures Post(a, p).books.sellCash == a.books.sellCash + (if p.Fill? && p.side == Sell then p.amount else 0)
  {
  }

  function CashOf(ps: seq<Posting>, token: TokenId, side: Side): Micro {
    var books := Replay(ps, token).books;
    if side == Buy then books.buyCash else books.sellCash
  }

  lemma CashAppend(ps: seq<Posting>, p: Posting, token: TokenId, side: Side)
    ensures CashOf(ps + [p], token, side)
         == CashOf(ps, token, side) + (if p.Fill? && p.token == token && p.side == side then p.amount else 0)
  {
    hide Post, Replay;
    ReplayAppend(ps, p, token);
    PostCash(Replay(ps, token), p);
  }

  lemma FillPosted(d: Desk, e: TradeEvent, token: TokenId, side: Side)
    requires InRecords(d) && Protocol(d)
    ensures FirstSuccess(d, e, token, side) <==>
            Confirms(d.mgr, e) && PostingFor(d.mgr, e).token == token && PostingFor(d.mgr, e).side == side
    ensures Confirms(d.mgr, e) ==>
              PostingFor(d.mgr, e).amount == CashAmount(d.market, e.side, e.role, e.shares, e.price)
  {
    hide CashAmount, Replayed, OrderProtocol, Known;
    KnownIsAccepted(d.mgr, e);
  }

  lemma StepKeepsCash(d: Desk, a: Action, token: TokenId, side: Side)
    requires Enabled(d, a) && InRecords(d) && Protocol(d)
    ensures CashOf(NextPostings(d, a), token, side) == CashOf(d.postings, token, side)
         + (if a.TradeArrives? && FirstSuccess(d, a.trade, token, side)
            then CashAmount(d.market, a.trade.side, a.trade.role, a.trade.shares, a.trade.price) else 0)
  {
    hide CashOf, CashAmount, FirstSuccess, InRecords, Protocol;
    if a.TradeArrives? {
      FillPosted(d, a.trade, token, side);
      if Confirms(d.mgr, a.trade) { CashAppend(d.postings, PostingFor(d.mgr, a.trade), token, side); }
    } else if a.Settles? {
      var posted := SettlementPostings(d.mgr, d.market, a.outcome);
      CashAppend(d.postings, posted[0], token, side);
      CashAppend(d.postings + [posted[0]], posted[1], token, side);
      assert d.postings + posted == (d.postings + [posted[0]]) + [posted[1]];
    }
  }

  /**
   In every state of every run, with nothing assumed: what the books have paid for a token, and
   what they have received, is the exact cash of its fills to within half a millionth per fill
   and ten millionths for each cut fee, on the side to which the fee is cut.
   */
  lemma {:induction false} CashFollowsFills(ds: seq<Desk>, acts: seq<Action>, k: nat, token: TokenId, side: Side)
    requires Trace(ds, acts) && k < |ds|
    ensures var books := Replay(ds[k].postings, token).books;
            Within(if side == Buy then books.buyCash else books.sellCash, FillsOf(ds, acts, k, token, side))
  {
    hide Within, Tallied, FirstSuccess, CashAmount, Replay, Initial, Enabled, Act;
    if k == 0 {
      NoCash(ds[0], token, side);
    } else {
      var d, a := ds[k - 1], acts[k - 1];
      CashFollowsFills(ds, acts, k - 1, token, side);
      StepCash(ds, acts, k, token, side);
      if a.TradeArrives? {
        CashOfFill(CashOf(d.postings, token, side), FillsOf(ds, acts, k - 1, token, side), d.market, a.trade);
      }
    }
  }

  lemma StepCash(ds: seq<Desk>, acts: seq<Action>, k: nat, token: TokenId, side: Side)
    requires Trace(ds, acts) && 0 < k < |ds|
    ensures var d, a := ds[k - 1], acts[k - 1];
            CashOf(ds[k].postings, token, side) == CashOf(d.postings, token, side)
            + (if a.TradeArrives? && FirstSuccess(d, a.trade, token, side)
               then CashAmount(d.market, a.trade.side, a.trade.role, a.trade.shares, a.trade.price) else 0)
  {
    hide CashOf, CashAmount, FirstSuccess, InRecords, Protocol;
    RecordedReached(ds, acts, k - 1);
    CancelProtocol(ds, acts, k - 1);
    StepKeepsCash(ds[k - 1], acts[k - 1], token, side);
  }

  lemma NoCash(d: Desk, token: TokenId, side: Side)
    requires Initial(d)
    ensures Within(CashOf(d.postings, token, side), Tally(0.0, 0, 0, 0))
  {
  }
}
