/**
 * What the operations of the market do to the accounts that ask for them (libraries/chain/market_evaluator.cpp,
 * asset_evaluator.cpp:414-463, 540-555): every balance before and after, and the orders and positions left behind.
 */
module AccountEffects {
  import opened Common
  import opened Arithmetic
  import opened Prices
  import opened Ledgers
  import opened Trading
  import opened TradePrices
  import opened OrderBooks
  import opened Backings
  import opened MarketDatabases
  import opened GlobalSettlements
  import opened BitAssetOperations
  import opened LimitMarkets
  import opened Positions
  import opened MarginCalls

  lemma DebitReaches(l: Ledger, who: AccountId, a: AssetId, n: nat, k: BalanceKey)
    requires CanDebit(l, who, a, n)
    ensures Get(Debit(l, who, a, n).balances, k) == Get(l.balances, k) - Gain(k, who, a, n)
  {
  }

  // ---------- limit orders ----------

  /** A new order takes what it sells from its seller's balance, and stands for all of it at the price asked. */
  lemma EnteredReaches(l: Ledger, id: OrderId, op: NewOrder, k: BalanceKey)
    requires CanDebit(l, op.seller, op.sellId, op.sell)
    ensures var l' := Entered(l, id, op);
      && Get(l'.balances, k) == Get(l.balances, k) - Gain(k, op.seller, op.sellId, op.sell)
      && l'.limits == l.limits[id :=
           LimitOrder(op.seller, op.sell, Price(op.sell, op.sellId, op.receive, op.receiveId), op.fee)]
  {
    DebitReaches(l, op.seller, op.sellId, op.sell, k);
  }

  /** Only the seller can cancel; what was still for sale and the deferred fee come back, less the fee of cancelling. */
  lemma WithdrawnReaches(l: Ledger, l': Ledger, who: AccountId, id: OrderId, fee: nat, k: BalanceKey)
    requires Withdrawn(l, who, id, fee) == Some(l')
    ensures id in l.limits && IsWithdrawal(l, l', l.limits[id], who, id, fee, k)
  {
    var l1 := l.(pendingFees := l.pendingFees + fee);
    CancelledAndCharged(l1, l', who, id, fee, k);
  }

  ghost predicate IsWithdrawal(
      l: Ledger, l': Ledger, o: LimitOrder, who: AccountId, id: OrderId, fee: nat, k: BalanceKey)
  {
    && o.seller == who && l'.limits == l.limits - {id}
    && Get(l'.balances, k) == Get(l.balances, k)
         + Gain(k, who, o.price.baseId, o.forSale) + Gain(k, who, CORE, o.deferredFee) - Gain(k, who, CORE, fee)
  }

  lemma CancelledAndCharged(l: Ledger, l': Ledger, who: AccountId, id: OrderId, fee: nat, k: BalanceKey)
    requires id in l.limits && l.limits[id].seller == who && Charged(Cancelled(l, id), who, fee) == Some(l')
    ensures IsWithdrawal(l, l', l.limits[id], who, id, fee, k)
  {
    CancelReaches(l, id, k);
    ChargedReaches(Cancelled(l, id), l', who, fee, k);
  }

  lemma ChargedReaches(l: Ledger, l': Ledger, who: AccountId, fee: nat, k: BalanceKey)
    requires Charged(l, who, fee) == Some(l')
    ensures l'.limits == l.limits && Get(l'.balances, k) == Get(l.balances, k) - Gain(k, who, CORE, fee)
  {
    DebitReaches(l, who, CORE, fee, k);
  }

  // ---------- positions ----------

  /** What of an amount that may be negative reaches a balance. */
  function Change(k: BalanceKey, who: AccountId, a: AssetId, n: int): int {
    if k == BalanceKey(who, a) then n else 0
  }

  lemma AdjustedReaches(l: Ledger, who: AccountId, a: AssetId, delta: int, k: BalanceKey)
    requires CanAdjust(l, who, a, delta)
    ensures Get(Adjusted(l, who, a, delta).balances, k) == Get(l.balances, k) + Change(k, who, a, delta)
  {
    if delta >= 0 { CreditReaches(l, who, a, delta, k); } else { DebitReaches(l, who, a, -delta, k); }
  }

  /** The borrower gets the new debt and gives the new collateral, or the other way round, and the position changes by
      both; without debt it is gone. */
  lemma BorrowedReaches(l: Ledger, id: OrderId, c: CallOrder, dc: int, dd: int, k: BalanceKey)
    requires CanBorrow(l, c, dc, dd) && c.debt + dd >= 0 && c.collateral + dc >= 0
    ensures var l' := Borrowed(l, id, c, dc, dd);
      && Get(l'.balances, k)
           == Get(l.balances, k) + Change(k, c.borrower, c.mia, dd) + Change(k, c.borrower, c.backing, -dc)
      && l'.calls == if c.debt + dd == 0 then l.calls - {id}
           else l.calls[id := CallOrder(c.borrower, c.collateral + dc, c.debt + dd, c.backing, c.mia)]
  {
    var l1 := Issue(Adjusted(l, c.borrower, c.mia, dd), c.mia, dd);
    AdjustedReaches(l, c.borrower, c.mia, dd, k);
    AdjustedReaches(l1, c.borrower, c.backing, -dc, k);
  }

  /** When a position may be opened or changed: the asset has not been settled, is backed by what is offered and has a
      feed, or is a prediction market where debt and collateral change alike; the account can give what it gives; and
      afterwards the position has debt and collateral or neither, a new one both. */
  lemma LendsExactly(l: Ledger, id: OrderId, who: AccountId, a: AssetId, backing: AssetId, dc: int, dd: int)
    requires Backed(l) && (id in l.calls ==> l.calls[id].borrower == who && l.calls[id].mia == a)
    ensures var debt, collateral :=
        if id in l.calls then l.calls[id].debt else 0, if id in l.calls then l.calls[id].collateral else 0;
      Lends(l, id, who, a, backing, dc, dd) <==>
        && a in l.bits && l.bits[a].settlement.None? && l.bits[a].backing == backing
        && (l.bits[a].feed.Some? || l.bits[a].prediction) && (l.bits[a].prediction ==> dc == dd)
        && !(dc == 0 && dd == 0)
        && Get(l.balances, BalanceKey(who, a)) + dd >= 0 && Get(l.balances, BalanceKey(who, backing)) - dc >= 0
        && (id !in l.calls ==> dc > 0 && dd > 0)
        && debt + dd >= 0 && collateral + dc >= 0 && (debt + dd == 0 <==> collateral + dc == 0)
  {
    if a in l.bits { assert BitFits(a, l.bits[a]); }
    if id in l.calls { assert CallFits(l.bits, l.calls[id]); }
  }

  // ---------- settlement requests and fees ----------

  /** A queued request holds what left its owner's balance, until the asset's delay has passed. */
  lemma QueuedReaches(l: Ledger, who: AccountId, a: AssetId, n: nat, date: nat, id: OrderId, k: BalanceKey)
    requires CanDebit(l, who, a, n)
    ensures var l' := Queued(l, who, a, n, date, id);
      && Get(l'.balances, k) == Get(l.balances, k) - Gain(k, who, a, n)
      && l'.settles == l.settles[id := SettleOrder(who, n, a, date)]
  {
    DebitReaches(l, who, a, n, k);
  }

  /** Before a global settlement the asset must allow forced settlement, have a feed and be no prediction market; after
      it, it needs a feed unless it is one. */
  lemma MaySettleExactly(b: BitAsset)
    ensures b.settlement.None? ==> (MaySettle(b) <==> b.canForceSettle && b.feed.Some? && !b.prediction)
    ensures b.settlement.Some? ==> (MaySettle(b) <==> b.feed.Some? || b.prediction)
  {
  }

  lemma ClaimedReaches(l: Ledger, issuer: AccountId, a: AssetId, n: nat, k: BalanceKey)
    requires n <= Get(l.fees, a)
    ensures var l' := Claimed(l, issuer, a, n);
      && Get(l'.balances, k) == Get(l.balances, k) + Gain(k, issuer, a, n)
      && Get(l'.fees, a) == Get(l.fees, a) - n
  {
    CreditReaches(l.(fees := l.fees[a := Get(l.fees, a) - n]), issuer, a, n, k);
  }
}
