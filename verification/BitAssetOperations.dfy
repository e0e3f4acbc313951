/** Asking for the settlement of an asset: redeeming from the fund after its global settlement, queueing before
    (libraries/chain/asset_evaluator.cpp:414-463). */
module BitAssetOperations {
  import opened Common
  import opened Prices
  import opened Ledgers
  import opened Backings
  import opened MarketDatabases
  import opened GlobalSettlements

  // ---------- redeeming after a global settlement ----------

  /** Taking n out of circulation and its share out of the fund. */
  ghost function Redeemed(l: Ledger, who: AccountId, a: AssetId, n: nat): Ledger
    requires a in l.bits && l.bits[a].settlement.Some? && l.bits[a].settlement.value.base > 0 && CanDebit(l, who, a, n)
    requires n * l.bits[a].settlement.value.quote / l.bits[a].settlement.value.base <= l.bits[a].fund
  {
    var b := l.bits[a];
    var paid := n * b.settlement.value.quote / b.settlement.value.base;
    var l1 := Debit(l, who, a, n).(bits := l.bits[a := b.(fund := b.fund - paid)]);
    Issue(Credit(l1, who, b.backing, paid), a, -(n as int))
  }

  /** A holder's claim is within the fund. */
  lemma HolderIsPaid(l: Ledger, who: AccountId, a: AssetId, n: nat)
    requires Backed(l) && a in l.bits && l.bits[a].settlement.Some? && CanDebit(l, who, a, n)
    ensures var p := l.bits[a].settlement.value;
      && p.base > 0 && n * p.quote / p.base <= l.bits[a].fund
      && Solvent(l.bits[a].fund - n * p.quote / p.base, GetInt(l.supply, a) - n, p)
  {
    assert Covered(l, a) && BitFits(a, l.bits[a]);
    HeldIsWithinSupply(l, who, a);
    RedemptionIsCovered(l.bits[a].fund, GetInt(l.supply, a), l.bits[a].settlement.value, n);
  }

  lemma RedeemedHolds(l: Ledger, who: AccountId, a: AssetId, n: nat, x: AssetId)
    requires a in l.bits && l.bits[a].settlement.Some? && l.bits[a].settlement.value.base > 0 && CanDebit(l, who, a, n)
    requires n * l.bits[a].settlement.value.quote / l.bits[a].settlement.value.base <= l.bits[a].fund
    ensures var l' := Redeemed(l, who, a, n);
      && Held(l', x) == Held(l, x) - (if x == a then n else 0)
      && Debt(l', x) == Debt(l, x)
      && GetInt(l'.supply, x) == GetInt(l.supply, x) - (if x == a then n else 0)
  {
    PaidFromFundHolds(l, who, a, n, n * l.bits[a].settlement.value.quote / l.bits[a].settlement.value.base, x);
  }

  lemma PaidFromFundHolds(l: Ledger, who: AccountId, a: AssetId, n: nat, paid: nat, x: AssetId)
    requires a in l.bits && CanDebit(l, who, a, n) && paid <= l.bits[a].fund
    ensures var b := l.bits[a];
      var l1 := Debit(l, who, a, n).(bits := l.bits[a := b.(fund := b.fund - paid)]);
      Held(Credit(l1, who, b.backing, paid), x) == Held(l, x) - if x == a then n else 0
  {
    var b := l.bits[a];
    var l0 := Debit(l, who, a, n);
    DebitHolds(l, who, a, n, x);
    PutBitHolds(l0, a, b.(fund := b.fund - paid), x);
    CreditHolds(l0.(bits := l0.bits[a := b.(fund := b.fund - paid)]), who, b.backing, paid, x);
  }

  /** Redeeming keeps the fund solvent for everybody else. */
  lemma RedeemedIsBacked(l: Ledger, who: AccountId, a: AssetId, n: nat)
    requires Backed(l) && a in l.bits && l.bits[a].settlement.Some? && CanDebit(l, who, a, n)
    requires l.bits[a].settlement.value.base > 0
    requires n * l.bits[a].settlement.value.quote / l.bits[a].settlement.value.base <= l.bits[a].fund
    ensures Backed(Redeemed(l, who, a, n))
  {
    var l' := Redeemed(l, who, a, n);
    HolderIsPaid(l, who, a, n);
    forall x: AssetId ensures Covered(l', x) {
      assert Covered(l, x);
      RedeemedHolds(l, who, a, n, x);
    }
    forall i | i in l'.calls ensures CallFits(l'.bits, l'.calls[i]) { assert CallFits(l.bits, l.calls[i]); }
    forall x | x in l'.bits ensures BitFits(x, l'.bits[x]) { assert BitFits(x, l.bits[x]); }
  }

  /** A run of redemptions of an asset after its global settlement, by holders of what is left of the supply. */
  ghost function FundAfter(fund: nat, supply: int, p: Price, run: seq<nat>): Option<nat>
    requires p.base > 0
    decreases |run|
  {
    if run == [] then Some(fund)
    else
      var paid := run[0] * p.quote / p.base;
      if run[0] > supply || paid > fund then None else FundAfter(fund - paid, supply - run[0], p, run[1..])
  }

  /** No run within the supply ever asks more of the fund than it has, and what is left covers the rest. */
  lemma {:induction false} EveryRunIsCovered(fund: nat, supply: int, p: Price, run: seq<nat>)
    requires p.base > 0 && Solvent(fund, supply, p) && Total(run) <= supply
    ensures FundAfter(fund, supply, p, run).Some?
    ensures Solvent(FundAfter(fund, supply, p, run).value, supply - Total(run), p)
    decreases |run|
  {
    if run != [] {
      RedemptionIsCovered(fund, supply, p, run[0]);
      EveryRunIsCovered(fund - run[0] * p.quote / p.base, supply - run[0], p, run[1..]);
    }
  }

  /** Ids given out from now on are unused. */
  ghost predicate FreshIds(db: MarketDatabase)
    reads db
  {
    (forall i :: i in db.settles ==> i < db.nextId) && (forall i :: i in db.calls ==> i < db.nextId)
  }

  // ---------- asking for settlement ----------

  /** What the evaluator asks: a feed even after a global settlement, except of a prediction market. */
  predicate MaySettle(b: BitAsset) {
    && (b.canForceSettle || b.settlement.Some?)
    && (if b.prediction then b.settlement.Some? else b.feed.Some?)
  }

  ghost function Queued(l: Ledger, who: AccountId, a: AssetId, n: nat, date: nat, id: OrderId): Ledger
    requires CanDebit(l, who, a, n)
  {
    Debit(l, who, a, n).(settles := l.settles[id := SettleOrder(who, n, a, date)])
  }

  lemma QueuedIsBacked(l: Ledger, who: AccountId, a: AssetId, n: nat, date: nat, id: OrderId)
    requires Backed(l) && a in l.bits && CanDebit(l, who, a, n) && id !in l.settles
    ensures var l' := Queued(l, who, a, n, date, id);
      && Backed(l')
      && forall x: AssetId :: Conserved(l, l', x)
  {
    var l' := Queued(l, who, a, n, date, id);
    forall x: AssetId ensures Covered(l', x) && Conserved(l, l', x) {
      assert Covered(l, x);
      DebitHolds(l, who, a, n, x);
      PutSettleHolds(Debit(l, who, a, n), id, SettleOrder(who, n, a, date), x);
    }
  }

  /** asset_settle: redeems from the fund after a global settlement, otherwise queues a settlement order. The holder of
      the balance is never refused for want of funds. */
  method Settle(db: MarketDatabase, who: AccountId, a: AssetId, n: nat, now: nat) returns (ok: bool)
    requires Backed(db.Contents()) && FreshIds(db)
    modifies db`balances, db`settles, db`bits, db`supply, db`nextId
    ensures Backed(db.Contents()) && FreshIds(db)
    ensures ok == (
      && a in old(db.bits) && MaySettle(old(db.bits)[a]) && CanDebit(old(db.Contents()), who, a, n)
      && (old(db.bits)[a].settlement.Some? ==> Times(n, a, old(db.bits)[a].settlement.value).Some?))
    ensures ok && old(db.bits)[a].settlement.Some? ==>
      && old(db.bits)[a].settlement.value.base > 0
      && n * old(db.bits)[a].settlement.value.quote / old(db.bits)[a].settlement.value.base <= old(db.bits)[a].fund
      && db.Contents() == Redeemed(old(db.Contents()), who, a, n)
    ensures ok && old(db.bits)[a].settlement.None? ==>
      db.Contents() == Queued(old(db.Contents()), who, a, n, now + old(db.bits)[a].delay, old(db.nextId))
    ensures !ok ==> db.Contents() == old(db.Contents())
  {
    ghost var l := db.Contents();
    if a !in db.bits { return false; }
    var b := db.bits[a];
    if !MaySettle(b) || n > Get(db.balances, BalanceKey(who, a)) { return false; }
    if b.settlement.Some? {
      HolderIsPaid(l, who, a, n);
      RedeemedIsBacked(l, who, a, n);
      ok := Redeem(db, who, a, n);
    } else {
      QueuedIsBacked(l, who, a, n, now + b.delay, db.nextId);
      Queue(db, who, a, n, now + b.delay);
      ok := true;
    }
  }

  method Queue(db: MarketDatabase, who: AccountId, a: AssetId, n: nat, date: nat)
    requires CanDebit(db.Contents(), who, a, n) && FreshIds(db)
    modifies db`balances, db`settles, db`nextId
    ensures db.Contents() == Queued(old(db.Contents()), who, a, n, date, old(db.nextId)) && FreshIds(db)
  {
    var taken := db.AdjustBalance(who, a, -(n as int));
    db.settles := db.settles[db.nextId := SettleOrder(who, n, a, date)];
    db.nextId := db.nextId + 1;
  }

  method Redeem(db: MarketDatabase, who: AccountId, a: AssetId, n: nat) returns (ok: bool)
    requires a in db.bits && db.bits[a].settlement.Some? && CanDebit(db.Contents(), who, a, n)
    requires var p := db.bits[a].settlement.value;
      p.base > 0 && p.baseId == a && p.quoteId == db.bits[a].backing && n * p.quote / p.base <= db.bits[a].fund
    modifies db`balances, db`bits, db`supply
    ensures ok == Times(n, a, old(db.bits)[a].settlement.value).Some?
    ensures db.Contents() == if ok then Redeemed(old(db.Contents()), who, a, n) else old(db.Contents())
  {
    var b := db.bits[a];
    var settled := Times(n, a, b.settlement.value);
    if settled.None? { return false; }
    var taken := db.AdjustBalance(who, a, -(n as int));
    db.bits := db.bits[a := b.(fund := b.fund - settled.value)];
    var paid := db.AdjustBalance(who, b.backing, settled.value);
    db.supply := db.supply[a := GetInt(db.supply, a) - n];
    ok := true;
  }
}
