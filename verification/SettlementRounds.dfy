/**
 * What a forced settlement pays (libraries/chain/db_update.cpp:388-422, db_market.cpp:256-304), told from the
 * feed, the offset and the asset's cap.
 */
module SettlementRounds {
  import opened Common
  import opened Arithmetic
  import opened Prices
  import opened Ledgers
  import opened Trading
  import opened TradePrices
  import opened Backings
  import opened MarketDatabases
  import opened ForcedSettlements
  import opened ExpiredSettlements

  // ---------- the price ----------

  /** `w` is the amount at the feed price, rounded down. */
  predicate IsWorth(n: nat, feed: Price, w: nat) {
    w * feed.base <= n * feed.quote < (w + 1) * feed.base
  }

  /** `r` is `w` less the offset, rounded down. */
  predicate IsDiscounted(w: nat, offset: nat, r: int) {
    r * HUNDRED_PERCENT <= w * (HUNDRED_PERCENT - offset) < (r + 1) * HUNDRED_PERCENT
  }

  /** The whole order is offered for its worth at the feed price, less the offset; it has no price when it is worth more
      than there can be. */
  lemma PriceIsDiscounted(s: SettleOrder, b: BitAsset, w: nat)
    requires BitFits(s.mia, b) && b.feed.Some? && IsWorth(s.amount, b.feed.value, w)
    ensures var p := SettlementPrice(s, b);
      if w > MAX_SHARE_SUPPLY then p.None?
      else p.Some? && p.value.base == s.amount && IsDiscounted(w, b.offsetPercent, p.value.quote)
  {
    var feed := b.feed.value;
    DivUnique(s.amount * feed.quote, feed.base, w, s.amount * feed.quote - w * feed.base);
    if w <= MAX_SHARE_SUPPLY {
      DivIsLargest(w * (HUNDRED_PERCENT - b.offsetPercent), HUNDRED_PERCENT, 0);
    }
  }

  /** What `n` units of the order are paid: no more than they are worth at the feed price less the offset, and less than
      three units short of it. */
  predicate IsPaidFor(n: nat, feed: Price, offset: int, pays: nat) {
    var whole := n * feed.quote * (HUNDRED_PERCENT - offset);
    pays * HUNDRED_PERCENT * feed.base <= whole < (pays + 3) * HUNDRED_PERCENT * feed.base
  }

  /** Rounding three times, for the worth, the offset and the part, loses less than three units. */
  lemma PartIsPaidFor(n: nat, amount: nat, feed: Price, offset: nat, w: nat, r: nat, pays: nat)
    requires 0 < n <= amount && feed.base > 0 && offset <= HUNDRED_PERCENT
    requires IsWorth(amount, feed, w) && IsDiscounted(w, offset, r)
    requires pays * amount <= n * r < (pays + 1) * amount
    ensures IsPaidFor(n, feed, offset, pays)
  {
    PartIsNotMore(n, amount, feed, offset, w, r, pays);
    PartIsNotLess(n, amount, feed, offset, w, r, pays);
  }

  lemma PartIsNotMore(n: nat, amount: nat, feed: Price, offset: nat, w: nat, r: nat, pays: nat)
    requires 0 < amount && offset <= HUNDRED_PERCENT
    requires w * feed.base <= amount * feed.quote && r * HUNDRED_PERCENT <= w * (HUNDRED_PERCENT - offset)
    requires pays * amount <= n * r
    ensures pays * HUNDRED_PERCENT * feed.base <= n * feed.quote * (HUNDRED_PERCENT - offset)
  {
    var f, q, d := feed.base, feed.quote, HUNDRED_PERCENT - offset;
    var all := HUNDRED_PERCENT * f;
    MulMono(pays * amount, n * r, all);
    assert (n * r) * all == (r * HUNDRED_PERCENT) * (n * f) by { Exchange(n, r, f, HUNDRED_PERCENT); }
    MulMono(r * HUNDRED_PERCENT, w * d, n * f);
    assert (w * d) * (n * f) == (w * f) * (n * d) by { Exchange(n, w, d, f); }
    MulMono(w * f, amount * q, n * d);
    assert (amount * q) * (n * d) == (n * q * d) * amount by { Exchange(n, amount, d, q); Associate(n * q, d, amount); }
    assert (pays * amount) * all == (pays * all) * amount by { Associate(pays, amount, all); }
    CancelFactor(pays * all, n * q * d, amount);
  }

  lemma PartIsNotLess(n: nat, amount: nat, feed: Price, offset: nat, w: nat, r: nat, pays: nat)
    requires 0 < n <= amount && feed.base > 0 && offset <= HUNDRED_PERCENT
    requires amount * feed.quote < (w + 1) * feed.base && w * (HUNDRED_PERCENT - offset) < (r + 1) * HUNDRED_PERCENT
    requires n * r < (pays + 1) * amount
    ensures n * feed.quote * (HUNDRED_PERCENT - offset) < (pays + 3) * HUNDRED_PERCENT * feed.base
  {
    var d := HUNDRED_PERCENT - offset;
    WholeIsNotLess(amount * feed.quote, feed.base, d, w, r);
    PartOfWhole(n, amount, amount * feed.quote * d, r + 2, pays + 3, HUNDRED_PERCENT * feed.base);
    Reorder(amount, feed.quote, d, n);
    StrictCancel(n * feed.quote * d, (pays + 3) * (HUNDRED_PERCENT * feed.base), amount);
  }

  lemma WholeIsNotLess(x: nat, f: nat, d: nat, w: nat, r: nat)
    requires f > 0 && d <= HUNDRED_PERCENT && x < (w + 1) * f && w * d < (r + 1) * HUNDRED_PERCENT
    ensures x * d < (r + 2) * (HUNDRED_PERCENT * f)
  {
    MulMono(x, (w + 1) * f, d);
    assert ((w + 1) * f) * d == (w * d + d) * f by { Associate(w + 1, f, d); Distribute(w, 1, d); }
    StrictMul(w * d + d, (r + 2) * HUNDRED_PERCENT, f);
  }

  /** A part of what the whole falls short of falls short of the part. */
  lemma PartOfWhole(n: nat, amount: nat, whole: nat, r: nat, pays: nat, unit: nat)
    requires 0 < n <= amount && whole < r * unit && n * (r - 2) < (pays - 2) * amount && r >= 2 && pays >= 2
    ensures whole * n < (pays * unit) * amount
  {
    StrictMul(whole, r * unit, n);
    assert n * (r - 2) == n * r - 2 * n && (pays - 2) * amount == pays * amount - 2 * amount;
    MulMono(n * r, pays * amount, unit);
    assert (r * unit) * n == (n * r) * unit by { Associate(r, unit, n); }
    assert (pays * amount) * unit == (pays * unit) * amount by { Associate(pays, amount, unit); }
  }

  lemma Reorder(a: int, b: int, c: int, d: int)
    ensures (a * b * c) * d == (d * b * c) * a
  {
  }

  lemma StrictMul(a: int, b: int, k: nat)
    requires a < b && k > 0
    ensures a * k < b * k
  {
  }

  lemma StrictCancel(a: int, b: int, k: nat)
    requires a * k < b * k
    ensures a < b
  {
    if b <= a { MulMono(b, a, k); }
  }

  lemma Exchange(a: int, b: int, c: int, d: int)
    ensures (a * b) * (c * d) == (b * d) * (a * c)
    ensures (b * c) * (a * d) == (b * d) * (a * c)
    ensures (b * d) * (a * c) == ((a * d) * c) * b
  {
    Rotate(a * b, c, d);
    Rotate(a * b, d, c);
    Associate(a, b, d);
    Associate(b, c, a * d);
    Rotate(b, c, a * d);
    Associate(b, d, a * c);
    assert (a * b) * (c * d) == a * b * c * d;
    assert (b * d) * (a * c) == a * b * c * d;
    assert (b * c) * (a * d) == a * b * c * d;
    assert ((a * d) * c) * b == a * b * c * d;
  }

  // ---------- the rounds ----------

  /** No position of the asset that the lookup can find has less collateral per debt. */
  ghost predicate IsLeastCollateralized(calls: map<OrderId, CallOrder>, call: OrderId)
    requires call in calls
  {
    var c := calls[call];
    forall j :: j in calls && SameMarket(c, calls[j]) && CanBeFound(calls[j]) ==>
      c.collateral * calls[j].debt <= calls[j].collateral * c.debt
  }

  predicate CanBeFound(c: CallOrder) {
    0 < c.debt <= MAX_SHARE_SUPPLY && c.collateral > 0
  }

  predicate SameMarket(c: CallOrder, d: CallOrder) {
    c.mia == d.mia && c.backing == d.backing
  }

  /** The order is gone, and its owner has the amount back. */
  ghost predicate IsCancellation(l: Ledger, l': Ledger, id: OrderId) {
    && id in l.settles
    && l' == l.(balances := l'.balances, settles := l.settles - {id})
    && var s := l.settles[id];
    && forall k: BalanceKey :: Get(l'.balances, k) == Get(l.balances, k) + Gain(k, s.owner, s.mia, s.amount)
  }

  lemma CancelledIsCancellation(l: Ledger, id: OrderId)
    requires id in l.settles
    ensures IsCancellation(l, CancelledSettle(l, id), id)
  {
    var s, l' := l.settles[id], CancelledSettle(l, id);
    forall k: BalanceKey ensures Get(l'.balances, k) == Get(l.balances, k) + Gain(k, s.owner, s.mia, s.amount) {
      CreditReaches(l, s.owner, s.mia, s.amount, k);
    }
  }

  /** A round of a settlement: `n` units of the order, for `pays` of the collateral, `fee` of it kept back. */
  datatype Round = Round(call: OrderId, n: nat, pays: nat, fee: nat)

  /** With the least collateralized position, and as much as the order, the debt and the cap allow, paid for at the feed
      price less the offset; cancelled instead when that is all the collateral or more. */
  ghost predicate IsFairRound(
      rules: map<AssetId, FeeRule>, p: Point, q: Point, id: OrderId, feed: Price, offset: int, cap: int, r: Round)
  {
    var l := p.ledger;
    && id in l.settles && r.call in l.calls && IsLeastCollateralized(l.calls, r.call)
    && var s, c := l.settles[id], l.calls[r.call];
    && c.mia == s.mia
    && 0 < r.n <= s.amount && r.n <= c.debt && r.n <= cap - p.settled
    && (r.n == s.amount || r.n == c.debt || r.n == cap - p.settled)
    && IsPaidFor(r.n, feed, offset, r.pays)
    && if r.pays >= c.collateral then IsCancellation(l, q.ledger, id) && q.settled == p.settled
       else
         && q.settled == p.settled + r.n && r.fee <= r.pays && IsFee(rules, c.backing, r.pays, r.fee)
         && IsPaidOut(l, q.ledger, id, r)
  }

  /** The owner gets the collateral less the fee, the position has less debt and collateral or, when it owes nothing
      more, is closed and the rest of its collateral is the borrower's. */
  ghost predicate IsPaidOut(l: Ledger, l': Ledger, id: OrderId, r: Round)
    requires id in l.settles && r.call in l.calls
  {
    var s, c := l.settles[id], l.calls[r.call];
    && r.n <= s.amount && r.n <= c.debt && r.fee <= r.pays <= c.collateral
    && l'.settles == (if r.n == s.amount then l.settles - {id} else l.settles[id := s.(amount := s.amount - r.n)])
    && l'.calls == (if r.n == c.debt then l.calls - {r.call}
                    else l.calls[r.call := c.(debt := c.debt - r.n, collateral := c.collateral - r.pays)])
    && forall k: BalanceKey :: IsPaidTo(l, l', s, c, r, k)
  }

  ghost predicate IsPaidTo(l: Ledger, l': Ledger, s: SettleOrder, c: CallOrder, r: Round, k: BalanceKey)
    requires r.fee <= r.pays <= c.collateral
  {
    Get(l'.balances, k) == Get(l.balances, k) + Gain(k, s.owner, c.backing, r.pays - r.fee)
      + Gain(k, c.borrower, c.backing, if r.n == c.debt then c.collateral - r.pays else 0)
  }

  lemma MatchedSettlePays(l: Ledger, id: OrderId, r: Round)
    requires id in l.settles && r.call in l.calls
    requires r.n <= l.settles[id].amount && r.n <= l.calls[r.call].debt && r.fee <= r.pays <= l.calls[r.call].collateral
    ensures IsPaidOut(l, MatchedSettle(l, r.call, id, r.n, r.pays, r.fee), id, r)
  {
    forall k: BalanceKey
      ensures IsPaidTo(l, MatchedSettle(l, r.call, id, r.n, r.pays, r.fee), l.settles[id], l.calls[r.call], r, k)
    {
      SettlementReaches(l, id, r, k);
    }
  }

  lemma SettlementReaches(l: Ledger, id: OrderId, r: Round, k: BalanceKey)
    requires id in l.settles && r.call in l.calls
    requires r.n <= l.settles[id].amount && r.n <= l.calls[r.call].debt && r.fee <= r.pays <= l.calls[r.call].collateral
    ensures IsPaidTo(l, MatchedSettle(l, r.call, id, r.n, r.pays, r.fee), l.settles[id], l.calls[r.call], r, k)
  {
    var s, c := l.settles[id], l.calls[r.call];
    CallReaches(l, r.call, r.pays, r.n, k);
    CreditReaches(AddFee(FilledCall(l, r.call, r.pays, r.n), c.backing, r.fee), s.owner, c.backing, r.pays - r.fee, k);
  }

  /** A price made from the feed and the offset for an amount. */
  ghost predicate IsPriceOf(price: Price, feed: Price, offset: int) {
    && feed.base > 0 && price.base > 0 && 0 <= offset <= HUNDRED_PERCENT
    && exists w: nat :: IsWorth(price.base, feed, w) && IsDiscounted(w, offset, price.quote)
  }

  lemma PriceIsPriceOf(s: SettleOrder, b: BitAsset)
    requires BitFits(s.mia, b) && b.feed.Some? && SettlementPrice(s, b).Some? && s.amount > 0
    ensures IsPriceOf(SettlementPrice(s, b).value, b.feed.value, b.offsetPercent)
  {
    var feed := b.feed.value;
    QuotientIsNat(s.amount, feed.quote, feed.base);
    var w: nat := s.amount * feed.quote / feed.base;
    DivIsLargest(s.amount * feed.quote, feed.base, w);
    PriceIsDiscounted(s, b, w);
  }

  /** What a part of the order is paid at its price. */
  lemma PaysFairly(n: nat, price: Price, feed: Price, offset: nat)
    requires IsPriceOf(price, feed, offset) && 0 < n <= price.base
    ensures IsPaidFor(n, feed, offset, n * price.quote / price.base)
  {
    var w: nat :| IsWorth(price.base, feed, w) && IsDiscounted(w, offset, price.quote);
    QuotientIsNat(n, price.quote, price.base);
    var pays: nat := n * price.quote / price.base;
    DivIsLargest(n * price.quote, price.base, pays);
    PartIsPaidFor(n, price.base, feed, offset, w, price.quote, pays);
  }

  lemma LeastIsLeast(calls: map<OrderId, CallOrder>, mia: AssetId, call: OrderId)
    requires call in calls && calls[call].mia == mia && IsLeast(calls, mia, call)
    ensures IsLeastCollateralized(calls, call)
  {
    var c := calls[call];
    forall j | j in calls && SameMarket(c, calls[j]) && CanBeFound(calls[j])
      ensures c.collateral * calls[j].debt <= calls[j].collateral * c.debt
    {
      ListedHasCollateral(calls[j]);
      LeastIsFirst(calls, mia, call, j);
    }
  }

  /** Every round is fair. */
  ghost predicate IsFairStep(
      rules: map<AssetId, FeeRule>, p: Point, q: Point, id: OrderId, feed: Price, offset: int, cap: int)
  {
    && id in p.ledger.settles
    && if p.ledger.settles[id].amount == 0 then IsCancellation(p.ledger, q.ledger, id) && q.settled == p.settled
       else exists r :: IsFairRound(rules, p, q, id, feed, offset, cap, r)
  }

  lemma RoundIsFair(
      rules: map<AssetId, FeeRule>, p: Point, q: Point, id: OrderId, price: Price, feed: Price, offset: nat, cap: int)
    requires IsRound(rules, p, q, id, price, cap) && (price.base > 0 ==> IsPriceOf(price, feed, offset))
    ensures IsFairStep(rules, p, q, id, feed, offset, cap)
  {
    var call :| IsRoundWith(rules, p, q, id, price, cap, call);
    if p.ledger.settles[id].amount == 0 {
      CancelledIsCancellation(p.ledger, id);
    } else {
      var m :| SettlesBy(rules, p, q, id, price, cap, call, m);
      var r := MatchIsFair(rules, p, q, id, price, feed, offset, cap, call, m);
    }
  }

  lemma MatchIsFair(
      rules: map<AssetId, FeeRule>, p: Point, q: Point, id: OrderId, price: Price, feed: Price, offset: nat, cap: int,
      call: OrderId, m: SettleMatch)
      returns (r: Round)
    requires FairRules(rules) && p.settled < cap && CanSettle(p.ledger, call, id, price)
    requires IsLeast(p.ledger.calls, p.ledger.settles[id].mia, call) && p.ledger.settles[id].amount > 0
    requires SettlesBy(rules, p, q, id, price, cap, call, m) && IsPriceOf(price, feed, offset)
    ensures IsFairRound(rules, p, q, id, feed, offset, cap, r)
  {
    var l, max := p.ledger, cap - p.settled;
    var n, pays := SettledAmount(l, call, id, max), SettlementPays(l, call, id, price, max);
    LeastIsLeast(l.calls, l.settles[id].mia, call);
    FeeWithinAmount(rules, price.quoteId, pays);
    MarketFeeIsFee(rules, price.quoteId, pays);
    r := Round(call, n, pays, MarketFee(rules, price.quoteId, pays));
    PaysFairly(n, price, feed, offset);
    CancelledIsCancellation(l, id);
    if pays < l.calls[call].collateral { MatchedSettlePays(l, id, r); }
  }

  // ---------- a pass ----------

  /** The oldest order of its asset, by the date it is due. */
  ghost predicate IsOldest(settles: map<OrderId, SettleOrder>, head: OrderId) {
    && head in settles
    && forall j :: j in settles && settles[j].mia == settles[head].mia ==>
         && settles[head].date <= settles[j].date
         && (settles[head].date == settles[j].date ==> head <= j)
  }

  /** An order that is due is settled in fair rounds until it is gone, the asset's cap is reached, or no position with
      collateral is found; the cap is the asset's percentage of its supply before any settlement. */
  ghost predicate IsFairSettlement(
      rules: map<AssetId, FeeRule>, l: Ledger, l': Ledger, head: OrderId, now: nat, cap: int, path: seq<Point>)
  {
    && IsOldest(l.settles, head) && l.settles[head].date <= now
    && var mia := l.settles[head].mia;
    && mia in l.bits && l.bits[mia].feed.Some?
    && var b := l.bits[mia];
    && var share := (GetInt(l.supply, mia) + b.settledVolume) * b.volumePercent;
    && cap * HUNDRED_PERCENT <= share < (cap + 1) * HUNDRED_PERCENT && b.settledVolume < cap
    && |path| > 0 && path[0] == Point(l, b.settledVolume)
    && (forall k: nat :: k < |path| - 1 ==>
          IsFairStep(rules, path[k], path[k + 1], head, b.feed.value, b.offsetPercent, cap))
    && var last := path[|path| - 1];
    && (head in last.ledger.settles ==> last.settled == cap || ListedCalls(last.ledger.calls, mia) == {})
    && mia in last.ledger.bits && last.settled >= 0 && l' == WithVolume(last.ledger, mia, last.settled)
  }

  /** Every pass that settles an order does so fairly. */
  lemma PassIsFair(rules: map<AssetId, FeeRule>, l: Ledger, l': Ledger, head: OrderId, now: nat)
      returns (cap: int, path: seq<Point>)
    requires IsPassAt(rules, l, l', head, now)
    requires l.bits[l.settles[head].mia].settlement.None? && l.bits[l.settles[head].mia].feed.Some?
    ensures IsFairSettlement(rules, l, l', head, now, cap, path)
  {
    var s := l.settles[head];
    var b := l.bits[s.mia];
    assert BitFits(s.mia, b);
    SuppliedIsOwed(l, s.mia);
    VolumeIsShare(b, GetInt(l.supply, s.mia));
    if s.amount > 0 { PriceIsPriceOf(s, b); }
    cap := Volume(b, GetInt(l.supply, s.mia));
    var price := SettlementPrice(s, b).value;
    path :| IsSettledAlong(rules, l, l', head, price, cap, path);
    forall k: nat | k < |path| - 1
      ensures IsFairStep(rules, path[k], path[k + 1], head, b.feed.value, b.offsetPercent, cap)
    {
      RoundIsFair(rules, path[k], path[k + 1], head, price, b.feed.value, b.offsetPercent, cap);
    }
    HeadIsOldest(l.settles, head);
  }

  lemma HeadIsOldest(settles: map<OrderId, SettleOrder>, head: OrderId)
    requires head in settles && IsHead(settles, From(settles, settles[head].mia), head)
    ensures IsOldest(settles, head)
  {
    forall j | j in settles && settles[j].mia == settles[head].mia
      ensures settles[head].date <= settles[j].date && (settles[head].date == settles[j].date ==> head <= j)
    {
      assert j in From(settles, settles[head].mia);
      if j != head { assert Earlier(settles[head], head, settles[j], j); }
    }
  }
}
