/**
 * Everything of the object database that the market moves: balances, limit orders, margin positions,
 * forced settlements, collected fees, supplies and settlement funds; the elementary changes to them;
 * and how much of each asset they hold (libraries/chain/db_balance.cpp, market_object.hpp, asset_object.hpp).
 */
module Ledgers {
  import opened Common
  import opened MapSums
  import opened Prices

  type AccountId = nat
  type OrderId = nat

  datatype BalanceKey = BalanceKey(owner: AccountId, assetId: AssetId)
  datatype LimitOrder = LimitOrder(seller: AccountId, forSale: nat, price: Price, deferredFee: nat)
  datatype CallOrder = CallOrder(borrower: AccountId, collateral: nat, debt: nat, backing: AssetId, mia: AssetId)
  datatype SettleOrder = SettleOrder(owner: AccountId, amount: nat, mia: AssetId, date: nat)

  /** A bitasset's options and state; `settlement` is set by a global settlement. */
  datatype BitAsset = BitAsset(
    backing: AssetId, prediction: bool, canForceSettle: bool, volumePercent: nat, offsetPercent: nat, delay: nat,
    feed: Option<Price>, settledVolume: nat, settlement: Option<Price>, fund: nat)

  datatype Ledger = Ledger(
    balances: map<BalanceKey, nat>,
    limits: map<OrderId, LimitOrder>,
    calls: map<OrderId, CallOrder>,
    settles: map<OrderId, SettleOrder>,
    fees: map<AssetId, nat>,       // accumulated_fees
    pendingFees: nat,              // fees of filled orders, in the core asset
    supply: map<AssetId, int>,     // current_supply
    bits: map<AssetId, BitAsset>)

  function Get<K>(m: map<K, nat>, k: K): nat { if k in m then m[k] else 0 }
  function GetInt<K>(m: map<K, int>, k: K): int { if k in m then m[k] else 0 }

  // ---------- elementary changes ----------

  /** adjust_balance with a positive amount; nothing happens for zero. */
  function Credit(l: Ledger, who: AccountId, a: AssetId, n: nat): (l': Ledger)
    ensures l' == l.(balances := l'.balances)
  {
    if n == 0 then l
    else l.(balances := l.balances[BalanceKey(who, a) := Get(l.balances, BalanceKey(who, a)) + n])
  }

  predicate CanDebit(l: Ledger, who: AccountId, a: AssetId, n: nat) {
    n <= Get(l.balances, BalanceKey(who, a))
  }

  /** adjust_balance with a negative amount, when the balance covers it. */
  function Debit(l: Ledger, who: AccountId, a: AssetId, n: nat): (l': Ledger)
    requires CanDebit(l, who, a, n)
    ensures l' == l.(balances := l'.balances)
  {
    if n == 0 then l
    else l.(balances := l.balances[BalanceKey(who, a) := Get(l.balances, BalanceKey(who, a)) - n])
  }

  function AddFee(l: Ledger, a: AssetId, n: nat): (l': Ledger)
    ensures l' == l.(fees := l'.fees)
  {
    if n == 0 then l else l.(fees := l.fees[a := Get(l.fees, a) + n])
  }

  function Issue(l: Ledger, a: AssetId, n: int): Ledger {
    l.(supply := l.supply[a := GetInt(l.supply, a) + n])
  }

  // ---------- how much of an asset there is ----------

  ghost function BalanceIn(a: AssetId): (BalanceKey, nat) -> int {
    (k: BalanceKey, n: nat) => if k.assetId == a then n else 0
  }

  ghost function ForSaleIn(a: AssetId): (OrderId, LimitOrder) -> int {
    (k: OrderId, o: LimitOrder) => OrderHolds(o, a)
  }

  ghost function OrderHolds(o: LimitOrder, a: AssetId): nat {
    (if o.price.baseId == a then o.forSale else 0) + (if a == CORE then o.deferredFee else 0)
  }

  ghost function CollateralIn(a: AssetId): (OrderId, CallOrder) -> int {
    (k: OrderId, c: CallOrder) => if c.backing == a then c.collateral else 0
  }

  ghost function DebtIn(a: AssetId): (OrderId, CallOrder) -> int {
    (k: OrderId, c: CallOrder) => if c.mia == a then c.debt else 0
  }

  ghost function SettlingIn(a: AssetId): (OrderId, SettleOrder) -> int {
    (k: OrderId, s: SettleOrder) => if s.mia == a then s.amount else 0
  }

  ghost function FundIn(a: AssetId): (AssetId, BitAsset) -> int {
    (k: AssetId, b: BitAsset) => if b.backing == a then b.fund else 0
  }

  /** Everything that is held of an asset: balances, amounts for sale, settlement orders, collateral, settlement
      funds and collected fees; for the core asset also the orders' deferred fees and the pending fees. */
  ghost function Held(l: Ledger, a: AssetId): int {
    Sum(l.balances, BalanceIn(a)) + Sum(l.limits, ForSaleIn(a)) + Sum(l.settles, SettlingIn(a))
    + Sum(l.calls, CollateralIn(a)) + Sum(l.bits, FundIn(a)) + Get(l.fees, a)
    + if a == CORE then l.pendingFees else 0
  }

  ghost function Debt(l: Ledger, a: AssetId): int {
    Sum(l.calls, DebtIn(a))
  }

  /** What no market step changes: the part of the supply that is not held here. */
  ghost function Outside(l: Ledger, a: AssetId): int {
    GetInt(l.supply, a) - Held(l, a)
  }

  lemma CreditHolds(l: Ledger, who: AccountId, a: AssetId, n: nat, x: AssetId)
    ensures Held(Credit(l, who, a, n), x) == Held(l, x) + if x == a then n else 0
  {
    var k := BalanceKey(who, a);
    SumUpdate<BalanceKey, nat>(l.balances, k, Get(l.balances, k) + n, BalanceIn(x));
  }

  lemma DebitHolds(l: Ledger, who: AccountId, a: AssetId, n: nat, x: AssetId)
    requires CanDebit(l, who, a, n)
    ensures Held(Debit(l, who, a, n), x) == Held(l, x) - if x == a then n else 0
  {
    var k := BalanceKey(who, a);
    SumUpdate<BalanceKey, nat>(l.balances, k, Get(l.balances, k) - n, BalanceIn(x));
  }

  lemma AddFeeHolds(l: Ledger, a: AssetId, n: nat, x: AssetId)
    ensures Held(AddFee(l, a, n), x) == Held(l, x) + if x == a then n else 0
  {
  }

  lemma PutLimitHolds(l: Ledger, id: OrderId, o: LimitOrder, x: AssetId)
    ensures Held(l.(limits := l.limits[id := o]), x)
      == Held(l, x) + OrderHolds(o, x) - if id in l.limits then OrderHolds(l.limits[id], x) else 0
  {
    SumUpdate(l.limits, id, o, ForSaleIn(x));
  }

  lemma DropLimitHolds(l: Ledger, id: OrderId, x: AssetId)
    requires id in l.limits
    ensures Held(l.(limits := l.limits - {id}), x) == Held(l, x) - OrderHolds(l.limits[id], x)
  {
    SumRemove(l.limits, id, ForSaleIn(x));
  }

  lemma PutSettleHolds(l: Ledger, id: OrderId, s: SettleOrder, x: AssetId)
    ensures Held(l.(settles := l.settles[id := s]), x) == Held(l, x)
      + (if s.mia == x then s.amount else 0)
      - (if id in l.settles && l.settles[id].mia == x then l.settles[id].amount else 0)
  {
    SumUpdate(l.settles, id, s, SettlingIn(x));
  }

  lemma DropSettleHolds(l: Ledger, id: OrderId, x: AssetId)
    requires id in l.settles
    ensures Held(l.(settles := l.settles - {id}), x) ==
      Held(l, x) - if l.settles[id].mia == x then l.settles[id].amount else 0
  {
    SumRemove(l.settles, id, SettlingIn(x));
  }

  lemma PutCallHolds(l: Ledger, id: OrderId, c: CallOrder, x: AssetId)
    ensures var l' := l.(calls := l.calls[id := c]);
      && Held(l', x) == Held(l, x)
           + (if c.backing == x then c.collateral else 0)
           - (if id in l.calls && l.calls[id].backing == x then l.calls[id].collateral else 0)
      && Debt(l', x) == Debt(l, x)
           + (if c.mia == x then c.debt else 0)
           - (if id in l.calls && l.calls[id].mia == x then l.calls[id].debt else 0)
  {
    SumUpdate(l.calls, id, c, CollateralIn(x));
    SumUpdate(l.calls, id, c, DebtIn(x));
  }

  lemma DropCallHolds(l: Ledger, id: OrderId, x: AssetId)
    requires id in l.calls
    ensures var l' := l.(calls := l.calls - {id});
      && Held(l', x) == Held(l, x) - (if l.calls[id].backing == x then l.calls[id].collateral else 0)
      && Debt(l', x) == Debt(l, x) - (if l.calls[id].mia == x then l.calls[id].debt else 0)
  {
    SumRemove(l.calls, id, CollateralIn(x));
    SumRemove(l.calls, id, DebtIn(x));
  }

  lemma PutBitHolds(l: Ledger, a: AssetId, b: BitAsset, x: AssetId)
    ensures Held(l.(bits := l.bits[a := b]), x) == Held(l, x)
      + (if b.backing == x then b.fund else 0)
      - (if a in l.bits && l.bits[a].backing == x then l.bits[a].fund else 0)
  {
    SumUpdate(l.bits, a, b, FundIn(x));
  }

  /** Each part of what is held is within the whole. */
  lemma PartsWithinHeld(l: Ledger, a: AssetId)
    ensures Held(l, a) >= 0
    ensures forall k :: k in l.balances && k.assetId == a ==> l.balances[k] <= Held(l, a)
    ensures forall i :: i in l.settles && l.settles[i].mia == a ==> l.settles[i].amount <= Held(l, a)
  {
    SumNonNegative(l.balances, BalanceIn(a));
    SumNonNegative(l.limits, ForSaleIn(a));
    SumNonNegative(l.settles, SettlingIn(a));
    SumNonNegative(l.calls, CollateralIn(a));
    SumNonNegative(l.bits, FundIn(a));
    forall k | k in l.balances && k.assetId == a ensures l.balances[k] <= Held(l, a) {
      assert BalanceIn(a)(k, l.balances[k]) == l.balances[k];
    }
    forall i | i in l.settles && l.settles[i].mia == a ensures l.settles[i].amount <= Held(l, a) {
      assert SettlingIn(a)(i, l.settles[i]) == l.settles[i].amount;
    }
  }
}
