/**
 * When a position is called, and what the call pays (libraries/chain/db_market.cpp:467-542, db_update.cpp:217-270),
 * told from debts, collateral and prices.
 */
module CallConditions {
  import opened Common
  import opened Arithmetic
  import opened Prices
  import opened PriceIndices
  import opened Ledgers
  import opened Trading
  import opened TradePrices
  import opened OrderBooks
  import opened Backings
  import opened MarketDatabases
  import opened GlobalSettlements
  import opened MarginCalls
  import opened CallChecks

  // ---------- every round of a check ----------

  /** A call: `n` of the debt for `pays` of the collateral, `fee` of it kept back from the seller. */
  datatype CallRound = CallRound(call: OrderId, bid: OrderId, n: nat, pays: nat, fee: nat)

  /** The position owes most per collateral by the call prices, the oldest of equals first. */
  ghost predicate IsFirstToCall(l: Ledger, mia: AssetId, g: Guide, call: OrderId) {
    && call in l.calls && l.calls[call].mia == mia && call in g.callPrices
    && forall j :: j in l.calls && l.calls[j].mia == mia ==>
         j in g.callPrices && ComesFirst(g.callPrices[call], call, g.callPrices[j], j)
  }

  predicate ComesFirst(p: Price, i: nat, q: Price, j: nat) {
    && q.base * p.quote <= p.base * q.quote
    && (q.base * p.quote == p.base * q.quote ==> i <= j)
  }

  /** The bid offers most, the oldest of equals first, of those at no less than the squeeze price that have not been
      passed. */
  ghost predicate IsBestBid(l: Ledger, g: Guide, passed: set<OrderId>, bid: OrderId) {
    && IsOffer(l, g, passed, bid)
    && forall j :: IsOffer(l, g, passed, j) ==> ComesFirst(l.limits[bid].price, bid, l.limits[j].price, j)
  }

  ghost predicate IsOffer(l: Ledger, g: Guide, passed: set<OrderId>, j: OrderId) {
    && j in l.limits && j !in passed && SamePair(l.limits[j].price, g.squeeze)
    && g.squeeze.base * l.limits[j].price.quote <= l.limits[j].price.base * g.squeeze.quote
  }

  /** An open market in which the first position is no black swan, its call price is below neither the feed nor the best
      bid, and the bid would pay all its debt out of its collateral: it buys what it owes or all there is. */
  ghost predicate IsDueCall(l: Ledger, k: Cursor, mia: AssetId, g: Guide, r: CallRound) {
    && mia in l.bits && IsOpen(l.bits[mia])
    && IsFirstToCall(l, mia, g, r.call) && IsBestBid(l, g, k.passed, r.bid)
    && var c, o := l.calls[r.call], l.limits[r.bid];
    && IsCallable(g.callPrices[r.call], l.bits[mia].feed.value) && IsCallable(g.callPrices[r.call], o.price)
    && IsAfloat(l, mia, c) && IsAffordable(c, o)
    && r.n <= c.debt && r.n <= o.forSale && (r.n == c.debt || r.n == o.forSale)
    && r.pays * o.price.base <= r.n * o.price.quote < (r.pays + 1) * o.price.base
  }

  /** The seller gets the collateral less the fee, and the rest of the bid back if it is worth less than a unit; the
      position has less debt and collateral or, when it owes nothing more, is closed for its borrower. */
  ghost predicate IsCarriedOut(rules: map<AssetId, FeeRule>, l: Ledger, l': Ledger, r: CallRound)
    requires r.call in l.calls && r.bid in l.limits
  {
    var c, o := l.calls[r.call], l.limits[r.bid];
    && r.n <= c.debt && r.n <= o.forSale && r.fee <= r.pays <= c.collateral && IsFee(rules, c.backing, r.pays, r.fee)
    && l'.limits == Remaining(l.limits, r.bid, r.n, true)
    && l'.calls == (if r.n == c.debt then l.calls - {r.call}
                    else l.calls[r.call := c.(debt := c.debt - r.n, collateral := c.collateral - r.pays)])
    && forall k: BalanceKey :: IsCallPaid(l, l', c, o, r, k)
  }

  ghost predicate IsCallPaid(l: Ledger, l': Ledger, c: CallOrder, o: LimitOrder, r: CallRound, k: BalanceKey)
    requires r.n <= o.forSale && r.fee <= r.pays <= c.collateral
  {
    Get(l'.balances, k) == Get(l.balances, k)
      + Gain(k, c.borrower, c.backing, if r.n == c.debt then c.collateral - r.pays else 0)
      + Gain(k, o.seller, o.price.quoteId, r.pays - r.fee)
      + Gain(k, o.seller, o.price.baseId, if IsDust(o, r.n) then o.forSale - r.n else 0)
  }

  lemma MarginCalledPays(l: Ledger, r: CallRound, cull: bool, k: BalanceKey)
    requires r.call in l.calls && r.bid in l.limits && Positive(l.limits[r.bid].price)
    requires r.n <= l.calls[r.call].debt && r.n <= l.limits[r.bid].forSale
    requires r.fee <= r.pays <= l.calls[r.call].collateral && cull == LeavesDust(l.limits[r.bid], r.n)
    ensures IsCallPaid(l, MarginCalled(l, r.call, r.bid, r.n, r.pays, r.fee, cull), l.calls[r.call], l.limits[r.bid],
      r, k)
  {
    CallReaches(l, r.call, r.pays, r.n, k);
    FillReaches(FilledCall(l, r.call, r.pays, r.n), r.bid, r.n, r.pays, r.fee, cull, k);
    DustIsLeft(l.limits[r.bid], r.n);
  }

  lemma CallIsCarriedOut(rules: map<AssetId, FeeRule>, l: Ledger, call: OrderId, bid: OrderId)
      returns (r: CallRound)
    requires IsCallOf(rules, l, call, bid)
    ensures r.call == call && r.bid == bid && IsCarriedOut(rules, l, AfterCall(rules, l, call, bid), r)
    ensures var c, o := l.calls[call], l.limits[bid];
      && (r.n == c.debt || r.n == o.forSale)
      && r.pays * o.price.base <= r.n * o.price.quote < (r.pays + 1) * o.price.base
  {
    var c, o := l.calls[call], l.limits[bid];
    var n, pays := CallAmount(c, o), CallPays(c, o);
    FeeWithinAmount(rules, c.backing, pays);
    MarketFeeIsFee(rules, c.backing, pays);
    r := CallRound(call, bid, n, pays, MarketFee(rules, c.backing, pays));
    DivIsLargest(n * o.price.quote, o.price.base, pays);
    MarginCalledIsCarriedOut(rules, l, r, LeavesDust(o, n));
  }

  lemma MarginCalledIsCarriedOut(rules: map<AssetId, FeeRule>, l: Ledger, r: CallRound, cull: bool)
    requires r.call in l.calls && r.bid in l.limits && Positive(l.limits[r.bid].price)
    requires r.n <= l.calls[r.call].debt && r.n <= l.limits[r.bid].forSale
    requires r.fee <= r.pays <= l.calls[r.call].collateral && cull == LeavesDust(l.limits[r.bid], r.n)
    requires IsFee(rules, l.calls[r.call].backing, r.pays, r.fee)
    ensures IsCarriedOut(rules, l, MarginCalled(l, r.call, r.bid, r.n, r.pays, r.fee, cull), r)
  {
    DustIsLeft(l.limits[r.bid], r.n);
    forall k: BalanceKey
      ensures IsCallPaid(l, MarginCalled(l, r.call, r.bid, r.n, r.pays, r.fee, cull), l.calls[r.call], l.limits[r.bid],
        r, k)
    {
      MarginCalledPays(l, r, cull, k);
    }
  }

  lemma SeenIsFirst(l: Ledger, mia: AssetId, g: Guide, k: Cursor, v: View)
    requires AllSound(l.limits) && Sees(l, mia, g, k, v) && IsGuideOf(g, mia)
    ensures v.call.Some? ==> IsFirstToCall(l, mia, g, v.call.value)
    ensures v.bid.Some? ==> IsBestBid(l, g, k.passed, v.bid.value)
  {
    if v.call.Some? {
      forall j | j in l.calls && l.calls[j].mia == mia
        ensures j in g.callPrices && ComesFirst(g.callPrices[v.call.value], v.call.value, g.callPrices[j], j)
      {
        assert j in CallsOf(l.calls, mia);
        if j != v.call.value { assert Before(g.callPrices[v.call.value], v.call.value, g.callPrices[j], j); }
      }
    }
    if v.bid.Some? { SeenIsBest(l, mia, g, k, v); }
  }

  lemma SeenIsBest(l: Ledger, mia: AssetId, g: Guide, k: Cursor, v: View)
    requires Sees(l, mia, g, k, v) && v.bid.Some?
    ensures IsBestBid(l, g, k.passed, v.bid.value)
  {
    var bid, offers := v.bid.value, Bids(l.limits, g.squeeze) - k.passed;
    assert bid in offers;
    forall j | IsOffer(l, g, k.passed, j) ensures ComesFirst(l.limits[bid].price, bid, l.limits[j].price, j) {
      assert j in offers;
      if j != bid { assert Before(PricesOf(l.limits)[bid], bid, PricesOf(l.limits)[j], j); }
    }
  }

  /** Every round of every check is such a call. */
  lemma RoundIsDue(
      rules: map<AssetId, FeeRule>, path: seq<Stand>, mia: AssetId, g: Guide, enabled: bool, i: nat)
      returns (r: CallRound)
    requires IsCheck(rules, path, mia, g, enabled) && i < |path| - 1 && IsGuideOf(g, mia)
    ensures IsDueCall(path[i].ledger, path[i].cursor, mia, g, r)
    ensures IsCarriedOut(rules, path[i].ledger, path[i + 1].ledger, r)
  {
    assert IsCallRound(rules, path[i], path[i + 1], mia, g, enabled);
    var v :| IsCallRoundAt(rules, path[i], path[i + 1], mia, g, enabled, v);
    r := CallIsDue(rules, path[i], path[i + 1], mia, g, enabled, v);
  }

  lemma CallIsDue(
      rules: map<AssetId, FeeRule>, p: Stand, q: Stand, mia: AssetId, g: Guide, enabled: bool, v: View)
      returns (r: CallRound)
    requires IsCallRoundAt(rules, p, q, mia, g, enabled, v) && IsGuideOf(g, mia)
    ensures IsDueCall(p.ledger, p.cursor, mia, g, r) && IsCarriedOut(rules, p.ledger, q.ledger, r)
  {
    CallIsPossible(rules, p.ledger, mia, g, v, p.cursor, enabled);
    CalledMarketIsOpen(rules, p, q, mia, g, enabled, v);
    SeenIsFirst(p.ledger, mia, g, p.cursor, v);
    LookDecides(p.ledger, mia, g, p.cursor, v, enabled);
    r := CallIsCarriedOut(rules, p.ledger, v.call.value, v.bid.value);
  }
}
