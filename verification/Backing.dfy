/**
 * What backs a market-issued asset: margin positions until a global settlement, the settlement fund after it
 * (libraries/chain/asset_object.cpp:97-108, db_market.cpp:44-94, asset_evaluator.cpp:430-454).
 */
module Backings {
  import opened Common
  import opened Arithmetic
  import opened MapSums
  import opened Prices
  import opened Ledgers

  // ---------- the settlement fund ----------

  /** The fund holds at least the remaining supply's share of the original fund. */
  ghost predicate Solvent(fund: nat, supply: int, settlement: Price) {
    fund * settlement.base >= supply * settlement.quote
  }

  /** Whoever redeems up to the whole supply is paid from the fund, which stays solvent. */
  lemma RedemptionIsCovered(fund: nat, supply: int, settlement: Price, n: nat)
    requires settlement.base > 0 && n <= supply && Solvent(fund, supply, settlement)
    ensures var paid := n * settlement.quote / settlement.base;
      paid <= fund && Solvent(fund - paid, supply - n, settlement)
  {
    var q, b := settlement.quote, settlement.base;
    var paid := n * q / b;
    DivIsLargest(n * q, b, paid);
    MulMono(n, supply, q);
    CancelFactor(paid, fund, b);
    Distribute(fund - paid, paid, b);
    Distribute(supply - n, n, q);
  }

  // ---------- the cap on forced settlement ----------

  /** max_force_settlement_volume */
  function Volume(b: BitAsset, supply: int): int {
    var total := supply + b.settledVolume;
    if b.volumePercent == 0 then 0
    else if b.volumePercent == HUNDRED_PERCENT then total
    else total * b.volumePercent / HUNDRED_PERCENT
  }

  /** The cap is a percentage of what there was when nothing had been settled, rounded down. */
  lemma VolumeIsShare(b: BitAsset, supply: int)
    requires supply >= 0
    ensures var cap, share := Volume(b, supply), (supply + b.settledVolume) * b.volumePercent;
      cap * HUNDRED_PERCENT <= share < (cap + 1) * HUNDRED_PERCENT
  {
    DivIsLargest((supply + b.settledVolume) * b.volumePercent, HUNDRED_PERCENT, 0);
  }

  /** Below its cap an asset has some supply left. */
  lemma BelowCapIsSupplied(b: BitAsset, supply: int)
    requires b.volumePercent <= HUNDRED_PERCENT && supply >= 0 && b.settledVolume < Volume(b, supply)
    ensures supply > 0
  {
    var total := supply + b.settledVolume;
    MulMono(b.volumePercent, HUNDRED_PERCENT, total);
    DivMono(total * b.volumePercent, total * HUNDRED_PERCENT, HUNDRED_PERCENT);
    DivUnique(total * HUNDRED_PERCENT, HUNDRED_PERCENT, total, 0);
  }

  /** Settling moves supply into the settled volume, so the cap stays where it is. */
  lemma CapStays(b: BitAsset, supply: int, settled: nat)
    ensures Volume(b.(settledVolume := settled), supply + b.settledVolume - settled) == Volume(b, supply)
  {
  }

  // ---------- every market-issued asset is backed ----------

  ghost predicate BitFits(a: AssetId, b: BitAsset) {
    && a != CORE && b.backing != a
    && b.volumePercent <= HUNDRED_PERCENT && b.offsetPercent <= HUNDRED_PERCENT
    && (b.feed.Some? ==> Positive(b.feed.value) && b.feed.value.baseId == a && b.feed.value.quoteId == b.backing)
    && (b.settlement.None? ==> b.fund == 0)
    && (b.settlement.Some? ==>
         b.settlement.value.base > 0 && b.settlement.value.baseId == a && b.settlement.value.quoteId == b.backing)
  }

  /** Positions owe an asset that has not been globally settled, and an account has one position in it at most. */
  ghost predicate CallFits(bits: map<AssetId, BitAsset>, c: CallOrder) {
    c.debt > 0 && c.mia in bits && bits[c.mia].settlement.None? && c.backing == bits[c.mia].backing
  }

  predicate SamePosition(c: CallOrder, d: CallOrder) {
    c.borrower == d.borrower && c.mia == d.mia
  }

  ghost predicate CallsFit(bits: map<AssetId, BitAsset>, calls: map<OrderId, CallOrder>) {
    && (forall i :: i in calls ==> CallFits(bits, calls[i]))
    && (forall i, j :: i in calls && j in calls && SamePosition(calls[i], calls[j]) ==> i == j)
  }

  ghost predicate SettlesFit(bits: map<AssetId, BitAsset>, settles: map<OrderId, SettleOrder>) {
    forall i :: i in settles ==> settles[i].mia in bits
  }

  ghost predicate Covered(l: Ledger, a: AssetId) {
    a in l.bits ==>
    var b := l.bits[a];
    && Outside(l, a) >= 0
    && (b.settlement.None? ==> GetInt(l.supply, a) == Debt(l, a))
    && (b.settlement.Some? ==> Solvent(b.fund, GetInt(l.supply, a), b.settlement.value))
  }

  /** What every market step keeps. */
  ghost predicate Backed(l: Ledger) {
    && (forall a :: a in l.bits ==> BitFits(a, l.bits[a]))
    && CallsFit(l.bits, l.calls) && SettlesFit(l.bits, l.settles)
    && (forall a: AssetId :: Covered(l, a))
  }

  /** Supply, debt and holdings of every asset moved together, and only those of `mia` moved. */
  ghost predicate MovedTogether(l: Ledger, l': Ledger, mia: AssetId) {
    forall a: AssetId :: Moved(l, l', a, mia)
  }

  ghost predicate Moved(l: Ledger, l': Ledger, a: AssetId, mia: AssetId) {
    && Outside(l', a) == Outside(l, a)
    && Debt(l', a) - GetInt(l'.supply, a) == Debt(l, a) - GetInt(l.supply, a)
    && (a != mia ==> GetInt(l'.supply, a) == GetInt(l.supply, a))
  }

  lemma MovingTogetherKeepsBacked(l: Ledger, l': Ledger, mia: AssetId)
    requires Backed(l) && MovedTogether(l, l', mia) && l'.bits == l.bits
    requires CallsFit(l.bits, l'.calls) && SettlesFit(l.bits, l'.settles)
    requires mia in l.bits ==> l.bits[mia].settlement.None?
    ensures Backed(l')
  {
    forall a: AssetId ensures Covered(l', a) {
      assert Covered(l, a) && Moved(l, l', a, mia);
    }
  }

  /** An asset's feed, options and settled volume do not back anything. */
  lemma RevisionKeepsBacked(l: Ledger, a: AssetId, b: BitAsset)
    requires Backed(l) && a in l.bits && BitFits(a, b)
    requires b.backing == l.bits[a].backing && b.settlement == l.bits[a].settlement && b.fund == l.bits[a].fund
    ensures var l' := l.(bits := l.bits[a := b]);
      Backed(l') && forall x: AssetId :: Held(l', x) == Held(l, x)
  {
    var l' := l.(bits := l.bits[a := b]);
    forall x: AssetId ensures Covered(l', x) && Held(l', x) == Held(l, x) {
      assert Covered(l, x);
      PutBitHolds(l, a, b, x);
    }
    forall i | i in l.calls ensures CallFits(l'.bits, l.calls[i]) { assert CallFits(l.bits, l.calls[i]); }
  }

  /** Whenever some of an asset exists, somebody owes it. */
  lemma SuppliedIsOwed(l: Ledger, a: AssetId)
    requires Backed(l) && a in l.bits && l.bits[a].settlement.None?
    ensures GetInt(l.supply, a) >= 0
    ensures GetInt(l.supply, a) > 0 ==> exists i :: i in l.calls && l.calls[i].mia == a
  {
    assert Covered(l, a);
    SumNonNegative(l.calls, DebtIn(a));
    if GetInt(l.supply, a) > 0 {
      SumPositive(l.calls, DebtIn(a));
      var i :| i in l.calls && DebtIn(a)(i, l.calls[i]) > 0;
      assert l.calls[i].mia == a;
    }
  }

  /** Nobody holds more of an asset than there is. */
  lemma HeldIsWithinSupply(l: Ledger, who: AccountId, a: AssetId)
    requires Backed(l) && a in l.bits
    ensures Get(l.balances, BalanceKey(who, a)) <= GetInt(l.supply, a)
  {
    assert Covered(l, a);
    PartsWithinHeld(l, a);
  }
}
