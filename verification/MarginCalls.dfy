/**
 * Single margin calls (libraries/chain/db_market.cpp:505-542), asking for a global settlement
 * (asset_evaluator.cpp:387-412) and claiming fees (asset_evaluator.cpp:540-555).
 */
module MarginCalls {
  import opened Common
  import opened Arithmetic
  import opened MapSums
  import opened Prices
  import opened PriceIndices
  import opened Ledgers
  import opened Trading
  import opened OrderBooks
  import opened Backings
  import opened MarketDatabases
  import opened ForcedSettlements
  import opened GlobalSettlements

  // ---------- margin calls ----------

  /** A position and a limit order that sells its debt asset for its collateral. */
  ghost predicate CanCall(l: Ledger, call: OrderId, limit: OrderId) {
    && Backed(l) && call in l.calls && limit in l.limits && Sound(l.limits[limit])
    && l.limits[limit].price.baseId == l.calls[call].mia && l.limits[limit].price.quoteId == l.calls[call].backing
    && !l.bits[l.calls[call].mia].prediction && l.bits[l.calls[call].mia].feed.Some?
  }

  /** The debt the call buys back, and what it pays for it at the limit order's price. */
  function CallAmount(c: CallOrder, o: LimitOrder): nat { Min(c.debt, o.forSale) }

  function CallPays(c: CallOrder, o: LimitOrder): nat
    requires o.price.base > 0
  {
    CallAmount(c, o) * o.price.quote / o.price.base
  }

  /** The whole debt is affordable, so what is bought back is. */
  lemma CallIsAffordable(c: CallOrder, o: LimitOrder)
    requires o.price.base > 0 && c.debt * o.price.quote / o.price.base <= c.collateral
    ensures CallPays(c, o) <= c.collateral
  {
    TimesGrows(CallAmount(c, o), c.debt, o.price.quote, o.price.base);
  }

  lemma CallMovesTogether(l: Ledger, call: OrderId, limit: OrderId, amount: nat, pays: nat, fee: nat, cull: bool)
    requires call in l.calls && amount <= l.calls[call].debt && pays <= l.calls[call].collateral
    requires limit in l.limits && amount <= l.limits[limit].forSale && fee <= pays
    requires l.limits[limit].price.baseId == l.calls[call].mia && l.limits[limit].price.quoteId == l.calls[call].backing
    ensures MovedTogether(l, MarginCalled(l, call, limit, amount, pays, fee, cull), l.calls[call].mia)
  {
    var l', mia := MarginCalled(l, call, limit, amount, pays, fee, cull), l.calls[call].mia;
    forall x: AssetId ensures Moved(l, l', x, mia) {
      MarginCallHolds(l, call, limit, amount, pays, fee, cull, x);
    }
  }

  /** A call keeps every asset backed, and the asset's positions collateralized exactly when it does not use up the
      collateral of a position still in debt. */
  lemma CallKeepsBacked(l: Ledger, call: OrderId, limit: OrderId, amount: nat, pays: nat, fee: nat, cull: bool)
    requires Backed(l) && call in l.calls && amount <= l.calls[call].debt && pays <= l.calls[call].collateral
    requires limit in l.limits && amount <= l.limits[limit].forSale && fee <= pays
    requires l.limits[limit].price.baseId == l.calls[call].mia && l.limits[limit].price.quoteId == l.calls[call].backing
    ensures var l', mia := MarginCalled(l, call, limit, amount, pays, fee, cull), l.calls[call].mia;
      && Backed(l')
      && (Collateralized(l.calls, mia) ==>
            (Collateralized(l'.calls, mia) <==> pays < l.calls[call].collateral || amount == l.calls[call].debt))
  {
    var l', mia := MarginCalled(l, call, limit, amount, pays, fee, cull), l.calls[call].mia;
    CallMovesTogether(l, call, limit, amount, pays, fee, cull);
    FilledCallFits(l.bits, l, call, pays, amount);
    assert CallFits(l.bits, l.calls[call]);
    MovingTogetherKeepsBacked(l, l', mia);
    if pays == l.calls[call].collateral && amount < l.calls[call].debt {
      assert call in l'.calls && l'.calls[call].collateral == 0;
    }
  }

  /** Rounding can take the last collateral of a position that still owes something: exactly when buying back what the
      order sells, and no more, costs all the collateral. */
  lemma EmptiesPosition(c: CallOrder, o: LimitOrder)
    requires o.price.base > 0 && c.debt * o.price.quote / o.price.base <= c.collateral
    ensures CallPays(c, o) == c.collateral && CallAmount(c, o) < c.debt <==>
      o.forSale < c.debt && c.collateral * o.price.base <= o.forSale * o.price.quote
  {
    CallIsAffordable(c, o);
    DivIsLargest(CallAmount(c, o) * o.price.quote, o.price.base, c.collateral);
  }

  datatype Call = Called | Swan | Thrown

  /** One round of check_call_orders: the position buys back debt from the limit order, or, when it could not buy back
      all of it and that is allowed, the asset is globally settled at the feed price. */
  method MarginCall(db: MarketDatabase, call: OrderId, limit: OrderId, enabled: bool) returns (r: Call)
    requires FairRules(db.rules) && CanCall(db.Contents(), call, limit)
    modifies db`balances, db`fees, db`pendingFees, db`limits, db`calls, db`supply, db`bits
    ensures var c, o := old(db.calls)[call], old(db.limits)[limit];
      && (r == Called <==> Times(c.debt, c.mia, o.price).Some? && c.debt * o.price.quote / o.price.base <= c.collateral)
      && (r == Called ==>
            && CallPays(c, o) <= c.collateral && MarketFee(db.rules, c.backing, CallPays(c, o)) <= CallPays(c, o)
            && db.Contents() == MarginCalled(old(db.Contents()), call, limit, CallAmount(c, o), CallPays(c, o),
                 MarketFee(db.rules, c.backing, CallPays(c, o)), LeavesDust(o, CallAmount(c, o))))
    ensures var c, o := old(db.calls)[call], old(db.limits)[limit];
      r == Swan <==>
        && Times(c.debt, c.mia, o.price).Some? && Times(c.debt, c.mia, o.price).value > c.collateral && enabled
        && AllPriced(old(db.calls), c.mia, old(db.bits)[c.mia].feed.value)
    ensures r == Called ==> Backed(db.Contents())
    ensures r == Swan ==> IsGlobalSettlement(old(db.Contents()), db.Contents(), old(db.calls)[call].mia,
                            old(db.bits)[old(db.calls)[call].mia].feed.value)
    ensures r == Swan ==> Backed(db.Contents()) && forall x: AssetId :: Conserved(old(db.Contents()), db.Contents(), x)
  {
    var c, o := db.calls[call], db.limits[limit];
    var worth := Times(c.debt, c.mia, o.price);
    if worth.None? { return Thrown; }
    if worth.value > c.collateral {
      if !enabled { return Thrown; }
      SomebodyOwes(db.Contents(), call);
      var settled := GloballySettle(db, c.mia, db.bits[c.mia].feed.value);
      return if settled then Swan else Thrown;
    }
    CallIsAffordable(c, o);
    PaysWithin(c, o);
    FeeWithinAmount(db.rules, c.backing, CallPays(c, o));
    CallKeepsBacked(db.Contents(), call, limit, CallAmount(c, o), CallPays(c, o),
      MarketFee(db.rules, c.backing, CallPays(c, o)), LeavesDust(o, CallAmount(c, o)));
    var pays := Times(CallAmount(c, o), c.mia, o.price).value;
    db.FillCall(call, pays, CallAmount(c, o));
    var filled := db.FillLimit(limit, CallAmount(c, o), pays, true);
    r := Called;
  }

  lemma PaysWithin(c: CallOrder, o: LimitOrder)
    requires Positive(o.price) && c.mia == o.price.baseId && Times(c.debt, c.mia, o.price).Some?
    ensures Times(CallAmount(c, o), c.mia, o.price) == Some(CallPays(c, o))
  {
    TimesGrows(CallAmount(c, o), c.debt, o.price.quote, o.price.base);
  }

  /** An asset that is owed has a supply, a feed price of its own and no settlement. */
  lemma SomebodyOwes(l: Ledger, call: OrderId)
    requires Backed(l) && call in l.calls && l.bits[l.calls[call].mia].feed.Some?
    ensures var a := l.calls[call].mia;
      && a in l.bits && l.bits[a].settlement.None? && GetInt(l.supply, a) > 0
      && l.bits[a].feed.value.base > 0 && l.bits[a].feed.value.baseId == a
  {
    var a := l.calls[call].mia;
    assert CallFits(l.bits, l.calls[call]) && BitFits(a, l.bits[a]) && Covered(l, a);
    SumNonNegative(l.calls, DebtIn(a));
    assert DebtIn(a)(call, l.calls[call]) == l.calls[call].debt;
  }

  // ---------- asking for a global settlement ----------

  /** What the evaluator asks of the price: the least collateralized position can pay at it, in the collateral asset. */
  ghost predicate LeastCanPay(l: Ledger, a: AssetId, p: Price) {
    exists least :: least in l.calls && IsLeast(l.calls, a, least) && PaysInFull(l.calls[least], p)
  }

  predicate PaysInFull(c: CallOrder, p: Price) {
    p.quoteId == c.backing && Times(c.debt, c.mia, p).Some? && Times(c.debt, c.mia, p).value <= c.collateral
  }

  lemma OneIsLeast(l: Ledger, a: AssetId, least: OrderId)
    requires Backed(l) && a in l.bits && IsLeast(l.calls, a, least)
    ensures forall i :: IsLeast(l.calls, a, i) ==> i == least
  {
    assert BitFits(a, l.bits[a]);
    DebtPricesAreOrdered(l.bits, l.calls, a);
    forall i | IsLeast(l.calls, a, i) ensures i == least {
      FirstIsUnique(DebtPrices(l.calls, a), ListedCalls(l.calls, a), i, least);
    }
  }

  /** asset_global_settle; a refused one is undone. */
  method GlobalSettle(db: MarketDatabase, a: AssetId, p: Price) returns (ok: bool)
    requires Backed(db.Contents())
    modifies db`balances, db`calls, db`supply, db`bits
    ensures Backed(db.Contents()) && forall x: AssetId :: Conserved(old(db.Contents()), db.Contents(), x)
    ensures ok == (
      && a in old(db.bits) && old(db.bits)[a].settlement.None? && GetInt(old(db.supply), a) > 0
      && p.baseId == a && p.base > 0
      && LeastCanPay(old(db.Contents()), a, p) && AllPriced(old(db.calls), a, p))
    ensures if ok then IsGlobalSettlement(old(db.Contents()), db.Contents(), a, p)
      else db.Contents() == old(db.Contents())
  {
    ghost var l := db.Contents();
    if a !in db.bits || GetInt(db.supply, a) <= 0 || db.bits[a].settlement.Some? { return false; }
    if p.baseId != a || p.base == 0 { return false; }
    assert BitFits(a, l.bits[a]);
    var least := db.LeastCollateralized(a);
    if least.None? { return false; }  // the code asserts that there is one
    OneIsLeast(l, a, least.value);
    if !PaysInFull(db.calls[least.value], p) { return false; }
    ok := SettleOrUndo(db, a, p);
  }

  method SettleOrUndo(db: MarketDatabase, a: AssetId, p: Price) returns (ok: bool)
    requires Backed(db.Contents()) && a in db.bits && db.bits[a].settlement.None? && GetInt(db.supply, a) > 0
    requires p.base > 0 && p.baseId == a
    modifies db`balances, db`calls, db`supply, db`bits
    ensures ok == AllPriced(old(db.calls), a, p)
    ensures Backed(db.Contents()) && forall x: AssetId :: Conserved(old(db.Contents()), db.Contents(), x)
    ensures if ok then IsGlobalSettlement(old(db.Contents()), db.Contents(), a, p)
      else db.Contents() == old(db.Contents())
  {
    var balances, supply, calls, bits := db.balances, db.supply, db.calls, db.bits;
    ok := GloballySettle(db, a, p);
    if !ok { db.balances, db.supply, db.calls, db.bits := balances, supply, calls, bits; }
  }

  // ---------- claiming fees ----------

  method ClaimFees(db: MarketDatabase, issuer: AccountId, a: AssetId, n: nat) returns (ok: bool)
    modifies db`balances, db`fees
    ensures ok == (n <= Get(old(db.fees), a))
    ensures db.Contents() == if ok then Claimed(old(db.Contents()), issuer, a, n) else old(db.Contents())
  {
    if n > Get(db.fees, a) { return false; }
    db.fees := db.fees[a := Get(db.fees, a) - n];
    var paid := db.AdjustBalance(issuer, a, n);
    ok := true;
  }

  ghost function Claimed(l: Ledger, issuer: AccountId, a: AssetId, n: nat): Ledger
    requires n <= Get(l.fees, a)
  {
    Credit(l.(fees := l.fees[a := Get(l.fees, a) - n]), issuer, a, n)
  }

  /** Claimed fees become a balance: nothing is gained or lost, and every asset stays backed. */
  lemma ClaimKeepsBacked(l: Ledger, issuer: AccountId, a: AssetId, n: nat)
    requires Backed(l) && n <= Get(l.fees, a)
    ensures Backed(Claimed(l, issuer, a, n))
    ensures forall x: AssetId :: Conserved(l, Claimed(l, issuer, a, n), x)
  {
    var l1 := l.(fees := l.fees[a := Get(l.fees, a) - n]);
    forall x: AssetId ensures Covered(Claimed(l, issuer, a, n), x) && Conserved(l, Claimed(l, issuer, a, n), x) {
      assert Covered(l, x);
      CreditHolds(l1, issuer, a, n, x);
      assert Held(l1, x) == Held(l, x) - if x == a then n else 0;
    }
  }
}
