/**
 The vocabulary shared by the exchange and the execution core: markets and
 tokens, the events of the two feeds and the position snapshot.
 */
module Domain {
  import opened Rounding
  import opened Seqs

  type OrderId = string
  type TradeId = string
  type TokenId = string
  type MarketId = string

  datatype Side = Buy | Sell

  datatype Role = Maker | Taker

  datatype Token = Token(id: TokenId, outcome: string, marketId: MarketId) {
    function Key(): string { Lower(outcome) }
  }

  datatype Market = Market(id: MarketId, yesToken: Token, noToken: Token, feeRate: real) {
    predicate Lists(token: Token) { token == yesToken || token == noToken }

    /** What building a market from one metadata record guarantees. */
    predicate WellFormed() {
      && yesToken.marketId == id
      && noToken.marketId == id
      && yesToken.id != noToken.id
    }
  }

  /** ASCII lower-casing, which is all the two outcome names need. */
  function Lower(s: string): string {
    seq(|s|, i requires 0 <= i < |s| => if 'A' <= s[i] <= 'Z' then s[i] - 'A' + 'a' else s[i])
  }

  /** The same letter, or the small and the capital form of one. */
  predicate SameLetter(a: char, b: char) {
    || a == b
    || ('A' <= a <= 'Z' && b as int == a as int + 32)
    || ('A' <= b <= 'Z' && a as int == b as int + 32)
  }

  predicate SameLetters(s: string, t: string) {
    |s| == |t| && forall i :: 0 <= i < |s| ==> SameLetter(s[i], t[i])
  }

  lemma LowerIgnoresCase(s: string, t: string)
    ensures Lower(s) == Lower(t) <==> SameLetters(s, t)
  {
    if Lower(s) == Lower(t) {
      assert |Lower(s)| == |s| && |Lower(t)| == |t|;
      forall i | 0 <= i < |s|
        ensures SameLetter(s[i], t[i])
      {
        assert Lower(s)[i] == Lower(t)[i];
      }
    }
  }

  datatype MarketOrderStatus = Live | Invalid | Matched | Canceled | CanceledMarketResolved

  datatype MarketTradeStatus = TradeMatched | Mined | Confirmed | Retrying | Failed

  datatype OrderEvent = OrderEvent(
    marketId: MarketId, tokenId: TokenId, orderId: OrderId,
    status: MarketOrderStatus, shares: Micro, side: Side, price: real, matchedShares: Micro)
  {
    function UnmatchedShares(): Micro {
      if shares > matchedShares then shares - matchedShares else 0
    }

    predicate IsActive() { status == Live || status == Matched }
  }

  datatype TradeEvent = TradeEvent(
    exchTs: int, marketId: MarketId, tokenId: TokenId, orderId: OrderId, tradeId: TradeId,
    status: MarketTradeStatus, shares: Micro, side: Side, role: Role, price: real)
  {
    predicate IsSuccess() { status == Mined || status == Confirmed }
  }

  datatype Event = OrderFeed(order: OrderEvent) | TradeFeed(trade: TradeEvent)

  datatype CurrentPosition = CurrentPosition(
    opening: Micro, openSettling: Micro, closing: Micro, closeSettling: Micro,
    holdingCost: Micro, holdingShares: Micro, holdingAvgPrice: real, realizedPnl: Micro)
  {
    /** What will be held once every open order has filled and every fill has settled. */
    function EffectiveShares(): Micro {
      opening + openSettling + holdingShares - closing - closeSettling
    }

    /** The part of the holding that is free to be offered. */
    function SellableShares(): Micro {
      Max(holdingShares - closing - closeSettling, 0)
    }
  }
}
