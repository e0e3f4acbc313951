/**
 * What a global settlement gathers and what holders get of it (libraries/chain/db_market.cpp:69-85,
 * asset_evaluator.cpp:430-454), told from the debts, the collateral and the settlement price.
 */
module FundShares {
  import opened Common
  import opened Arithmetic
  import opened MapSums
  import opened Prices
  import opened Ledgers
  import opened Trading
  import opened TradePrices
  import opened Backings
  import opened MarketDatabases
  import opened GlobalSettlements
  import opened BitAssetOperations
  import opened MarginCalls

  // ---------- what a requested settlement asks ----------

  /** What a requested settlement asks of the least collateralized position: that its collateral is worth the debt after
      rounding, as an amount that there can be, in the asset of the price. */
  lemma PaysInFullExactly(c: CallOrder, p: Price)
    requires p.base > 0 && p.baseId == c.mia
    ensures PaysInFull(c, p) <==>
      && p.quoteId == c.backing && c.debt * p.quote < (c.collateral + 1) * p.base
      && c.debt * p.quote < (MAX_SHARE_SUPPLY + 1) * p.base
  {
    DivIsLargest(c.debt * p.quote, p.base, c.collateral + 1);
    DivIsLargest(c.debt * p.quote, p.base, MAX_SHARE_SUPPLY + 1);
  }

  // ---------- what the holders get ----------

  /** A share of the fund, rounded down. */
  predicate IsShareOf(n: int, supply: int, fund: int, paid: nat) {
    paid * supply <= n * fund < (paid + 1) * supply
  }

  /** A holder's share of a fund that is worth the supply is worth what is held, short of it by less than a unit for
      each position and one for the share. */
  lemma ShareIsWorth(n: nat, supply: nat, fund: nat, paid: nat, positions: nat, p: Price)
    requires p.base > 0 && n <= supply && 0 < supply && IsShareOf(n, supply, fund, paid)
    requires fund * p.base <= supply * p.quote < (fund + positions) * p.base
    ensures paid * p.base <= n * p.quote < (paid + 1 + positions) * p.base
  {
    ShareIsNotMore(n, supply, fund, paid, p.base, p.quote);
    if n > 0 { ShareIsNotLess(n, supply, fund, paid, positions, p.base, p.quote); }
  }

  lemma ShareIsNotMore(n: nat, supply: nat, fund: nat, paid: nat, b: nat, q: nat)
    requires supply > 0 && paid * supply <= n * fund && fund * b <= supply * q
    ensures paid * b <= n * q
  {
    MulMono(paid * supply, n * fund, b);
    MulMono(fund * b, supply * q, n);
    assert (paid * supply) * b == (paid * b) * supply by { Associate(paid, supply, b); }
    assert (n * fund) * b == (fund * b) * n by { Associate(n, fund, b); }
    assert (supply * q) * n == (n * q) * supply by { Associate(q, n, supply); }
    CancelFactor(paid * b, n * q, supply);
  }

  lemma ShareIsNotLess(n: nat, supply: nat, fund: nat, paid: nat, positions: nat, b: nat, q: nat)
    requires 0 < n <= supply && n * fund < (paid + 1) * supply && supply * q < (fund + positions) * b
    ensures n * q < (paid + 1 + positions) * b
  {
    MulMono(supply * q + 1, (fund + positions) * b, n);
    Distribute(supply * q, 1, n);
    assert (supply * q) * n == (n * q) * supply by { Associate(q, n, supply); }
    MulMono(n, supply, positions);
    Distribute(paid + 1, positions, supply);
    assert n * (fund + positions) == n * fund + n * positions;
    MulMono(n * (fund + positions), (paid + 1 + positions) * supply, b);
    assert ((fund + positions) * b) * n == (n * (fund + positions)) * b by { Associate(fund + positions, b, n); }
    assert ((paid + 1 + positions) * supply) * b == ((paid + 1 + positions) * b) * supply by {
      Associate(paid + 1 + positions, supply, b);
    }
    if n * q >= (paid + 1 + positions) * b { MulMono((paid + 1 + positions) * b, n * q, supply); }
  }

  /** What redeeming does to the balances: `n` of the asset for `paid` of the fund. */
  ghost predicate IsRedemption(l: Ledger, l': Ledger, who: AccountId, a: AssetId, n: nat, paid: nat)
    requires a in l.bits
  {
    forall k: BalanceKey :: Get(l'.balances, k) == Get(l.balances, k)
      - Gain(k, who, a, n) + Gain(k, who, l.bits[a].backing, paid)
  }

  lemma RedeemedIsRedemption(l: Ledger, who: AccountId, a: AssetId, n: nat)
    requires Backed(l) && a in l.bits && l.bits[a].settlement.Some? && CanDebit(l, who, a, n)
    requires l.bits[a].settlement.value.base > 0
    requires n * l.bits[a].settlement.value.quote / l.bits[a].settlement.value.base <= l.bits[a].fund
    ensures var p := l.bits[a].settlement.value;
      IsRedemption(l, Redeemed(l, who, a, n), who, a, n, n * p.quote / p.base)
  {
    assert BitFits(a, l.bits[a]);
    var paid := n * l.bits[a].settlement.value.quote / l.bits[a].settlement.value.base;
    forall k: BalanceKey
      ensures Get(Redeemed(l, who, a, n).balances, k)
        == Get(l.balances, k) - Gain(k, who, a, n) + Gain(k, who, l.bits[a].backing, paid)
    {
      ExchangeReaches(l, who, a, n, paid, k);
    }
  }

  lemma ExchangeReaches(l: Ledger, who: AccountId, a: AssetId, n: nat, paid: nat, k: BalanceKey)
    requires a in l.bits && CanDebit(l, who, a, n) && paid <= l.bits[a].fund && l.bits[a].backing != a
    ensures var l1 := Debit(l, who, a, n).(bits := l.bits[a := l.bits[a].(fund := l.bits[a].fund - paid)]);
      Get(Issue(Credit(l1, who, l.bits[a].backing, paid), a, -(n as int)).balances, k)
        == Get(l.balances, k) - Gain(k, who, a, n) + Gain(k, who, l.bits[a].backing, paid)
  {
    var l1 := Debit(l, who, a, n).(bits := l.bits[a := l.bits[a].(fund := l.bits[a].fund - paid)]);
    CreditReaches(l1, who, l.bits[a].backing, paid, k);
  }

  /** What `n` units come to in the settlement that `a` has had: their worth at the price, short of it by less than a
      unit for each position and one, when all positions covered their debts; and when none did, a share of all the
      collateral there was. */
  ghost predicate IsClaim(l0: Ledger, a: AssetId, p: Price, n: nat, paid: nat) {
    && (AllCover(l0.calls, a, p) ==>
          paid * p.base <= n * p.quote < (paid + 1 + |CallsOf(l0.calls, a)|) * p.base)
    && (NoneCovers(l0.calls, a, p) ==> IsShareOf(n, GetInt(l0.supply, a), Sum(l0.calls, CollateralOf(a)), paid))
  }

  lemma ClaimIsWorth(l0: Ledger, l1: Ledger, a: AssetId, p: Price, n: nat, paid: nat)
    requires Backed(l0) && IsGlobalSettlement(l0, l1, a, p)
    requires l0.bits[a].settlement.None? && 0 < GetInt(l0.supply, a) && n <= GetInt(l0.supply, a)
    requires IsShareOf(n, GetInt(l0.supply, a), l1.bits[a].fund, paid)
    ensures IsClaim(l0, a, p, n, paid)
  {
    FundIsWorth(l0, l1, a, p);
    if AllCover(l0.calls, a, p) {
      ShareIsWorth(n, GetInt(l0.supply, a), l1.bits[a].fund, paid, |CallsOf(l0.calls, a)|, p);
    }
  }

  lemma ClaimIsShare(l0: Ledger, l1: Ledger, a: AssetId, p: Price, n: nat) returns (paid: nat)
    requires IsGlobalSettlement(l0, l1, a, p) && 0 < GetInt(l0.supply, a)
    ensures IsShareOf(n, GetInt(l0.supply, a), l1.bits[a].fund, paid)
    ensures l1.bits[a].settlement.Some?
    ensures var s := l1.bits[a].settlement.value; s.base > 0 && paid == n * s.quote / s.base
  {
    var supply, fund := GetInt(l0.supply, a), l1.bits[a].fund;
    QuotientIsNat(n, fund, supply);
    paid := n * fund / supply;
    DivIsLargest(n * fund, supply, paid);
  }

  /** At any time after a global settlement a holder can redeem for as much as that. */
  lemma HolderGetsWorth(
      l0: Ledger, l1: Ledger, l: Ledger, who: AccountId, a: AssetId, p: Price, n: nat) returns (paid: nat)
    requires Backed(l0) && IsGlobalSettlement(l0, l1, a, p)
    requires l0.bits[a].settlement.None? && 0 < GetInt(l0.supply, a) && n <= GetInt(l0.supply, a)
    requires Backed(l) && a in l.bits && l.bits[a].settlement == l1.bits[a].settlement && CanDebit(l, who, a, n)
    ensures l.bits[a].settlement.Some? && l.bits[a].settlement.value.base > 0
    ensures n * l.bits[a].settlement.value.quote / l.bits[a].settlement.value.base == paid <= l.bits[a].fund
    ensures IsRedemption(l, Redeemed(l, who, a, n), who, a, n, paid) && IsClaim(l0, a, p, n, paid)
  {
    paid := ClaimIsShare(l0, l1, a, p, n);
    ClaimIsWorth(l0, l1, a, p, n, paid);
    HolderIsPaid(l, who, a, n);
    RedeemedIsRedemption(l, who, a, n);
  }
}
