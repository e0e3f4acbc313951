/** Margin positions: opening, changing and closing them (libraries/chain/market_evaluator.cpp:128-236). */
module Positions {
  import opened Common
  import opened Prices
  import opened Ledgers
  import opened Backings
  import opened MarketDatabases
  import opened GlobalSettlements
  import opened BitAssetOperations

  // ---------- changing a position ----------

  predicate CanAdjust(l: Ledger, who: AccountId, a: AssetId, delta: int) {
    -delta <= Get(l.balances, BalanceKey(who, a))
  }

  /** adjust_balance */
  ghost function Adjusted(l: Ledger, who: AccountId, a: AssetId, delta: int): (l': Ledger)
    requires CanAdjust(l, who, a, delta)
    ensures l' == l.(balances := l'.balances)
  {
    if delta >= 0 then Credit(l, who, a, delta) else Debit(l, who, a, -delta)
  }

  lemma AdjustedHolds(l: Ledger, who: AccountId, a: AssetId, delta: int, x: AssetId)
    requires CanAdjust(l, who, a, delta)
    ensures Held(Adjusted(l, who, a, delta), x) == Held(l, x) + if x == a then delta else 0
  {
    if delta >= 0 { CreditHolds(l, who, a, delta, x); } else { DebitHolds(l, who, a, -delta, x); }
  }

  /** The account's position in the asset, or an empty one. */
  function PositionAt(calls: Calls, id: OrderId, who: AccountId, backing: AssetId, a: AssetId): CallOrder {
    if id in calls then calls[id] else CallOrder(who, 0, 0, backing, a)
  }

  /** A new position takes on debt and collateral; afterwards a position has both or, being closed, neither. */
  predicate PositionFits(isNew: bool, c: CallOrder, dc: int, dd: int) {
    && (isNew ==> dc > 0 && dd > 0)
    && ((c.debt + dd == 0 && c.collateral + dc == 0) || (c.debt + dd > 0 && c.collateral + dc > 0))
  }

  function ChangedCalls(calls: Calls, id: OrderId, c: CallOrder, dc: int, dd: int): Calls
    requires c.debt + dd >= 0 && c.collateral + dc >= 0
  {
    if c.debt + dd == 0 then calls - {id}
    else calls[id := c.(debt := c.debt + dd, collateral := c.collateral + dc)]
  }

  ghost predicate CanBorrow(l: Ledger, c: CallOrder, dc: int, dd: int) {
    CanAdjust(l, c.borrower, c.mia, dd) && c.mia != c.backing && CanAdjust(l, c.borrower, c.backing, -dc)
  }

  /** The debt is paid out to the account and added to the supply; the collateral is taken from the account. */
  ghost function Exchanged(l: Ledger, c: CallOrder, dc: int, dd: int): (l': Ledger)
    requires CanBorrow(l, c, dc, dd)
    ensures l' == l.(balances := l'.balances, supply := l.supply[c.mia := GetInt(l.supply, c.mia) + dd])
  {
    Adjusted(Issue(Adjusted(l, c.borrower, c.mia, dd), c.mia, dd), c.borrower, c.backing, -dc)
  }

  lemma ExchangedHolds(l: Ledger, c: CallOrder, dc: int, dd: int, x: AssetId)
    requires CanBorrow(l, c, dc, dd)
    ensures Held(Exchanged(l, c, dc, dd), x) ==
      Held(l, x) + (if x == c.mia then dd else 0) - (if x == c.backing then dc else 0)
  {
    var l0 := Adjusted(l, c.borrower, c.mia, dd);
    var l1 := Issue(l0, c.mia, dd);
    AdjustedHolds(l, c.borrower, c.mia, dd, x);
    AdjustedHolds(l1, c.borrower, c.backing, -dc, x);
    assert Held(l1, x) == Held(l0, x);
  }

  /** The exchange and the position's change together. */
  ghost function Borrowed(l: Ledger, id: OrderId, c: CallOrder, dc: int, dd: int): Ledger
    requires CanBorrow(l, c, dc, dd) && c.debt + dd >= 0 && c.collateral + dc >= 0
  {
    Exchanged(l, c, dc, dd).(calls := ChangedCalls(l.calls, id, c, dc, dd))
  }

  lemma BorrowedHolds(l: Ledger, id: OrderId, c: CallOrder, dc: int, dd: int, x: AssetId)
    requires CanBorrow(l, c, dc, dd) && c.debt + dd >= 0 && c.collateral + dc >= 0
    requires if id in l.calls then l.calls[id] == c else c.debt == 0 && c.collateral == 0
    requires c.debt + dd == 0 ==> c.collateral + dc == 0 && id in l.calls
    ensures var l', n := Borrowed(l, id, c, dc, dd), if x == c.mia then dd else 0;
      && Held(l', x) == Held(l, x) + n
      && Debt(l', x) == Debt(l, x) + n
      && GetInt(l'.supply, x) == GetInt(l.supply, x) + n
  {
    var l1 := Exchanged(l, c, dc, dd);
    ExchangedHolds(l, c, dc, dd, x);
    if c.debt + dd == 0 {
      DropCallHolds(l1, id, x);
    } else {
      PutCallHolds(l1, id, c.(debt := c.debt + dd, collateral := c.collateral + dc), x);
    }
  }

  lemma BorrowedIsBacked(l: Ledger, id: OrderId, c: CallOrder, dc: int, dd: int)
    requires Backed(l) && c.mia in l.bits && l.bits[c.mia].settlement.None? && c.backing == l.bits[c.mia].backing
    requires if id in l.calls then l.calls[id] == c else c.debt == 0 && c.collateral == 0
    requires id !in l.calls ==> forall i :: i in l.calls ==>
      l.calls[i].borrower != c.borrower || l.calls[i].mia != c.mia
    requires CanBorrow(l, c, dc, dd) && PositionFits(id !in l.calls, c, dc, dd)
    ensures Backed(Borrowed(l, id, c, dc, dd)) && MovedTogether(l, Borrowed(l, id, c, dc, dd), c.mia)
  {
    var l' := Borrowed(l, id, c, dc, dd);
    forall x: AssetId ensures Moved(l, l', x, c.mia) { BorrowedHolds(l, id, c, dc, dd, x); }
    ChangedCallsFit(l.bits, l.calls, id, c, dc, dd);
    MovingTogetherKeepsBacked(l, l', c.mia);
  }

  lemma ChangedCallsFit(bits: map<AssetId, BitAsset>, calls: Calls, id: OrderId, c: CallOrder, dc: int, dd: int)
    requires CallsFit(bits, calls) && c.mia in bits && bits[c.mia].settlement.None? && c.backing == bits[c.mia].backing
    requires if id in calls then calls[id] == c else c.debt == 0 && c.collateral == 0
    requires id !in calls ==> forall i :: i in calls ==> calls[i].borrower != c.borrower || calls[i].mia != c.mia
    requires PositionFits(id !in calls, c, dc, dd)
    ensures CallsFit(bits, ChangedCalls(calls, id, c, dc, dd))
  {
    var calls' := ChangedCalls(calls, id, c, dc, dd);
    forall i | i in calls' ensures CallFits(bits, calls'[i]) {
      if i != id { assert CallFits(bits, calls[i]); }
    }
  }

  /** The evaluator's conditions on the asset. */
  predicate MayBorrow(b: BitAsset, backing: AssetId, dc: int, dd: int) {
    && (dc != 0 || dd != 0) && b.settlement.None? && b.backing == backing
    && (if b.prediction then dc == dd else b.feed.Some?)
  }

  ghost predicate IsPositionOf(calls: Calls, id: OrderId, who: AccountId, a: AssetId) {
    id in calls && calls[id].borrower == who && calls[id].mia == a
  }

  /** The id of the account's position, or of the one to be created. */
  ghost function PositionId(calls: Calls, nextId: OrderId, who: AccountId, a: AssetId): OrderId {
    if id: OrderId :| IsPositionOf(calls, id, who, a) then id else nextId
  }

  /** Whether the operation goes through. */
  ghost predicate Lends(l: Ledger, id: OrderId, who: AccountId, a: AssetId, backing: AssetId, dc: int, dd: int) {
    && a in l.bits && MayBorrow(l.bits[a], backing, dc, dd)
    && CanBorrow(l, PositionAt(l.calls, id, who, backing, a), dc, dd)
    && PositionFits(id !in l.calls, PositionAt(l.calls, id, who, backing, a), dc, dd)
  }

  lemma PositionIdFits(l: Ledger, nextId: OrderId, who: AccountId, a: AssetId)
    requires Backed(l) && a in l.bits && nextId !in l.calls
    ensures var id, backing := PositionId(l.calls, nextId, who, a), l.bits[a].backing;
      var c := PositionAt(l.calls, id, who, backing, a);
      && c.borrower == who && c.mia == a && c.backing == backing && a != backing
      && (id !in l.calls ==> id == nextId && forall i :: i in l.calls ==>
           l.calls[i].borrower != who || l.calls[i].mia != a)
  {
    var id := PositionId(l.calls, nextId, who, a);
    assert BitFits(a, l.bits[a]);
    if id in l.calls { assert CallFits(l.bits, l.calls[id]); }
    if id !in l.calls {
      forall i | i in l.calls ensures l.calls[i].borrower != who || l.calls[i].mia != a {
        assert !IsPositionOf(l.calls, i, who, a);
      }
    }
  }

  lemma NothingMoved(l: Ledger, a: AssetId)
    ensures MovedTogether(l, l, a)
  {
  }

  /** call_order_update, before the check for margin calls. Supply, debt and holdings of the asset grow alike. */
  method UpdateCall(db: MarketDatabase, who: AccountId, a: AssetId, backing: AssetId, dc: int, dd: int)
      returns (ok: bool)
    requires Backed(db.Contents()) && FreshIds(db)
    modifies db`balances, db`supply, db`calls, db`nextId
    ensures Backed(db.Contents()) && FreshIds(db)
    ensures MovedTogether(old(db.Contents()), db.Contents(), a)
    ensures var id := PositionId(old(db.calls), old(db.nextId), who, a);
      && ok == Lends(old(db.Contents()), id, who, a, backing, dc, dd)
      && (ok ==>
           db.Contents() == Borrowed(old(db.Contents()), id, PositionAt(old(db.calls), id, who, backing, a), dc, dd))
    ensures !ok ==> db.Contents() == old(db.Contents()) && db.nextId == old(db.nextId)
    ensures GetInt(db.supply, a) == GetInt(old(db.supply), a) + if ok then dd else 0
  {
    ghost var l := db.Contents();
    NothingMoved(l, a);
    if a !in db.bits || !MayBorrow(db.bits[a], backing, dc, dd) { return false; }
    ghost var id := PositionId(l.calls, db.nextId, who, a);
    PositionIdFits(l, db.nextId, who, a);
    ghost var c := PositionAt(l.calls, id, who, backing, a);
    var balances, supply, calls, nextId := db.balances, db.supply, db.calls, db.nextId;
    ok := ApplyUpdate(db, who, a, backing, dc, dd);
    if ok {
      BorrowedIsBacked(l, id, c, dc, dd);
      BorrowedHolds(l, id, c, dc, dd, a);
    } else {
      db.balances, db.supply, db.calls, db.nextId := balances, supply, calls, nextId;
    }
  }

  /** The operation up to the point where it is refused. */
  method ApplyUpdate(db: MarketDatabase, who: AccountId, a: AssetId, backing: AssetId, dc: int, dd: int)
      returns (ok: bool)
    requires Backed(db.Contents()) && FreshIds(db) && a in db.bits && MayBorrow(db.bits[a], backing, dc, dd)
    modifies db`balances, db`supply, db`calls, db`nextId
    ensures var id := PositionId(old(db.calls), old(db.nextId), who, a);
      && ok == Lends(old(db.Contents()), id, who, a, backing, dc, dd)
      && (ok ==>
           db.Contents() == Borrowed(old(db.Contents()), id, PositionAt(old(db.calls), id, who, backing, a), dc, dd))
    ensures ok ==> FreshIds(db)
  {
    PositionIdFits(db.Contents(), db.nextId, who, a);
    var id := FindCall(db, who, a);
    var c := PositionAt(db.calls, id, who, backing, a);
    ok := Exchange(db, c, dc, dd);
    if !ok || !PositionFits(id !in db.calls, c, dc, dd) { return false; }
    if id == db.nextId { db.nextId := db.nextId + 1; }
    db.calls := ChangedCalls(db.calls, id, c, dc, dd);
  }

  method Exchange(db: MarketDatabase, c: CallOrder, dc: int, dd: int) returns (ok: bool)
    requires c.mia != c.backing
    modifies db`balances, db`supply
    ensures ok == CanBorrow(old(db.Contents()), c, dc, dd)
    ensures ok ==> db.Contents() == Exchanged(old(db.Contents()), c, dc, dd)
  {
    ok := db.AdjustBalance(c.borrower, c.mia, dd);
    if !ok { return; }
    db.supply := db.supply[c.mia := GetInt(db.supply, c.mia) + dd];
    ok := db.AdjustBalance(c.borrower, c.backing, -dc);
  }

  /** Looks up the account's position. */
  method FindCall(db: MarketDatabase, who: AccountId, a: AssetId) returns (id: OrderId)
    requires Backed(db.Contents()) && FreshIds(db)
    ensures id == PositionId(db.calls, db.nextId, who, a)
  {
    var found := set i | i in db.calls && db.calls[i].borrower == who && db.calls[i].mia == a;
    if found == {} {
      forall i ensures !IsPositionOf(db.calls, i, who, a) { assert i !in found; }
      return db.nextId;
    }
    id :| id in found;
    assert IsPositionOf(db.calls, id, who, a);
  }
}
