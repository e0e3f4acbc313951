/** Global settlement (libraries/chain/db_market.cpp:44-94, asset_evaluator.cpp:387-412): every position of an asset is
    closed, what it owes goes into the settlement fund and the rest of its collateral back to the borrower. */
module GlobalSettlements {
  import opened Common
  import opened Arithmetic
  import opened MapSums
  import opened Prices
  import opened Ledgers
  import opened Trading
  import opened Backings
  import opened MarketDatabases

  type Calls = map<OrderId, CallOrder>

  // ---------- what each position pays and gets back ----------

  /** The debt at the settlement price, as far as the collateral goes. */
  function Owed(c: CallOrder, p: Price): nat
    requires p.base > 0
  {
    Min(c.debt * p.quote / p.base, c.collateral)
  }

  ghost function PaysIn(a: AssetId, p: Price): (OrderId, CallOrder) -> int
    requires p.base > 0
  {
    (i: OrderId, c: CallOrder) => if c.mia == a then Owed(c, p) else 0
  }

  ghost function FreedIn(a: AssetId, p: Price): (OrderId, CallOrder) -> int
    requires p.base > 0
  {
    (i: OrderId, c: CallOrder) => if c.mia == a then c.collateral - Owed(c, p) else 0
  }

  ghost function FreedTo(a: AssetId, p: Price, k: BalanceKey): (OrderId, CallOrder) -> int
    requires p.base > 0
  {
    (i: OrderId, c: CallOrder) =>
      if c.mia == a && k == BalanceKey(c.borrower, c.backing) then c.collateral - Owed(c, p) else 0
  }

  ghost function CollateralOf(a: AssetId): (OrderId, CallOrder) -> int {
    (i: OrderId, c: CallOrder) => if c.mia == a then c.collateral else 0
  }

  /** What is gathered and what is freed make up all the collateral. */
  lemma {:induction false} GatheredAndFreed(calls: Calls, a: AssetId, p: Price)
    requires p.base > 0
    ensures Sum(calls, PaysIn(a, p)) + Sum(calls, FreedIn(a, p)) == Sum(calls, CollateralOf(a))
    decreases |calls|
  {
    if calls != map[] {
      var i :| i in calls;
      SumRemove(calls, i, PaysIn(a, p));
      SumRemove(calls, i, FreedIn(a, p));
      SumRemove(calls, i, CollateralOf(a));
      GatheredAndFreed(calls - {i}, a, p);
    }
  }

  // ---------- what a global settlement does ----------

  ghost function Without(calls: Calls, a: AssetId): Calls {
    map i | i in calls && calls[i].mia != a :: calls[i]
  }

  /** The positions are gone, their payments are the fund, each borrower has got the rest of the collateral, and the
      settlement price is the supply for the fund. Nothing else changes. */
  ghost predicate IsGlobalSettlement(l: Ledger, l': Ledger, a: AssetId, p: Price)
  {
    && p.base > 0 && a in l.bits && GetInt(l.supply, a) >= 0
    && Sum(l.calls, PaysIn(a, p)) >= 0
    && var fund := Sum(l.calls, PaysIn(a, p));
    && var settlement := Price(GetInt(l.supply, a), a, fund, l.bits[a].backing);
    && l' == l.(balances := l'.balances, calls := Without(l.calls, a),
                bits := l.bits[a := l.bits[a].(settlement := Some(settlement), fund := fund)])
    && forall k: BalanceKey :: Freed(l, l', a, p, k)
  }

  ghost predicate Freed(l: Ledger, l': Ledger, a: AssetId, p: Price, k: BalanceKey)
    requires p.base > 0
  {
    Get(l'.balances, k) == Get(l.balances, k) + Sum(l.calls, FreedTo(a, p, k))
  }

  /** No asset is gained or lost. */
  ghost predicate Conserved(l: Ledger, l': Ledger, x: AssetId) {
    Held(l', x) == Held(l, x) && GetInt(l'.supply, x) == GetInt(l.supply, x)
  }

  // ---------- whether everybody can pay ----------

  /** Every position with at least as much collateral per debt can pay in full. */
  ghost predicate BetterCanPay(collateral: nat, debt: nat, p: Price)
    requires p.base > 0
  {
    forall c: nat, d: nat :: collateral * d <= c * debt ==> CanPay(c, d, p)
  }

  predicate CanPay(collateral: nat, debt: nat, p: Price)
    requires p.base > 0
  {
    debt * p.quote / p.base <= collateral
  }

  /** The least collateralized position speaks for all others exactly when it covers its debt before rounding; the
      evaluator asks whether it can pay after rounding, which is less. */
  lemma LeastSpeaksForAll(collateral: nat, debt: nat, p: Price)
    requires p.base > 0 && debt > 0
    ensures BetterCanPay(collateral, debt, p) <==> debt * p.quote <= collateral * p.base
  {
    if debt * p.quote <= collateral * p.base {
      forall c: nat, d: nat | collateral * d <= c * debt ensures CanPay(c, d, p) {
        BetterPays(collateral, debt, c, d, p.quote, p.base);
      }
    } else {
      // a position as many times as large as the price's base does not round
      assert collateral * (debt * p.base) == (collateral * p.base) * debt by { Rotate(collateral, debt, p.base); }
      assert (debt * p.base) * p.quote == (debt * p.quote) * p.base by { Associate(debt, p.base, p.quote); }
      DivUnique((debt * p.base) * p.quote, p.base, debt * p.quote, 0);
      assert !CanPay(collateral * p.base, debt * p.base, p);
    }
  }

  lemma BetterPays(cl: nat, dl: nat, c: nat, d: nat, q: nat, b: nat)
    requires dl > 0 && b > 0 && dl * q <= cl * b && cl * d <= c * dl
    ensures d * q / b <= c
  {
    MulMono(dl * q, cl * b, d);
    MulMono(cl * d, c * dl, b);
    Associate(cl, b, d);
    Associate(c, dl, b);
    Associate(dl, q, d);
    CancelFactor(d * q, c * b, dl);
    DivMono(d * q, c * b, b);
    DivUnique(c * b, b, c, 0);
  }

  lemma RoundingHidesShortfall()
    ensures var p := Price(10, 1, 9, 0); CanPay(1, 2, p) && !CanPay(10, 20, p) && !BetterCanPay(1, 2, p)
  {
    LeastSpeaksForAll(1, 2, Price(10, 1, 9, 0));
  }

  // ---------- while positions are being closed ----------

  ghost predicate Gathering(l0: Ledger, l: Ledger, a: AssetId, p: Price, gathered: nat)
    requires p.base > 0 && a in l0.bits
  {
    && l == l0.(balances := l.balances, calls := l.calls, supply := l.supply)
    && (forall i :: i in l.calls ==> i in l0.calls && l.calls[i] == l0.calls[i])
    && (forall i :: i in l0.calls && l0.calls[i].mia != a ==> i in l.calls)
    && gathered + Sum(l.calls, PaysIn(a, p)) == Sum(l0.calls, PaysIn(a, p))
    && l.supply[a := GetInt(l0.supply, a)] == l0.supply[a := GetInt(l0.supply, a)]
    && (forall k: BalanceKey :: FreedSoFar(l0, l, a, p, k))
    && (forall x: AssetId :: HeldSoFar(l0, l, a, gathered, x))
  }

  ghost predicate FreedSoFar(l0: Ledger, l: Ledger, a: AssetId, p: Price, k: BalanceKey)
    requires p.base > 0
  {
    Get(l.balances, k) + Sum(l.calls, FreedTo(a, p, k)) == Get(l0.balances, k) + Sum(l0.calls, FreedTo(a, p, k))
  }

  ghost predicate HeldSoFar(l0: Ledger, l: Ledger, a: AssetId, gathered: nat, x: AssetId)
    requires a in l0.bits
  {
    && Held(l, x) == Held(l0, x) - (if x == l0.bits[a].backing then gathered else 0)
    && (x != a ==> Debt(l, x) == Debt(l0, x) && GetInt(l.supply, x) == GetInt(l0.supply, x))
  }

  lemma ClosingGathers(l0: Ledger, l: Ledger, a: AssetId, p: Price, gathered: nat, id: OrderId)
    requires p.base > 0 && a in l0.bits && Gathering(l0, l, a, p, gathered)
    requires id in l.calls && l.calls[id].mia == a && l.calls[id].backing == l0.bits[a].backing
    ensures Gathering(l0, Closed(l, id, p), a, p, gathered + Owed(l.calls[id], p))
  {
    var pays := Owed(l.calls[id], p);
    SumRemove(l.calls, id, PaysIn(a, p));
    var g := gathered + pays;
    forall k: BalanceKey ensures FreedSoFar(l0, Closed(l, id, p), a, p, k) { ClosingFrees(l0, l, a, p, id, k); }
    forall x: AssetId ensures HeldSoFar(l0, Closed(l, id, p), a, g, x) { ClosingHolds(l0, l, a, p, gathered, id, x); }
    ClosingRest(l, id, p, a, GetInt(l0.supply, a));
  }

  ghost function Closed(l: Ledger, id: OrderId, p: Price): Ledger
    requires p.base > 0 && id in l.calls
  {
    FilledCall(l, id, Owed(l.calls[id], p), l.calls[id].debt)
  }

  lemma ClosingFrees(l0: Ledger, l: Ledger, a: AssetId, p: Price, id: OrderId, k: BalanceKey)
    requires p.base > 0 && id in l.calls && l.calls[id].mia == a && FreedSoFar(l0, l, a, p, k)
    ensures FreedSoFar(l0, Closed(l, id, p), a, p, k)
  {
    SumRemove(l.calls, id, FreedTo(a, p, k));
    var c := l.calls[id];
    var freed := if k == BalanceKey(c.borrower, c.backing) then c.collateral - Owed(c, p) else 0;
    assert FreedTo(a, p, k)(id, c) == freed;
    ClosedBalance(l, id, Owed(c, p), k);
  }

  lemma ClosedBalance(l: Ledger, id: OrderId, pays: nat, k: BalanceKey)
    requires id in l.calls && pays <= l.calls[id].collateral
    ensures var c := l.calls[id];
      Get(FilledCall(l, id, pays, c.debt).balances, k)
        == Get(l.balances, k) + if k == BalanceKey(c.borrower, c.backing) then c.collateral - pays else 0
  {
  }

  lemma ClosingHolds(l0: Ledger, l: Ledger, a: AssetId, p: Price, gathered: nat, id: OrderId, x: AssetId)
    requires p.base > 0 && a in l0.bits && HeldSoFar(l0, l, a, gathered, x)
    requires id in l.calls && l.calls[id].mia == a && l.calls[id].backing == l0.bits[a].backing
    ensures HeldSoFar(l0, Closed(l, id, p), a, gathered + Owed(l.calls[id], p), x)
  {
    FillCallHolds(l, id, Owed(l.calls[id], p), l.calls[id].debt, x);
  }

  lemma ClosingRest(l: Ledger, id: OrderId, p: Price, a: AssetId, n: int)
    requires p.base > 0 && id in l.calls && l.calls[id].mia == a
    ensures var l' := Closed(l, id, p);
      && l' == l.(balances := l'.balances, calls := l.calls - {id}, supply := l'.supply)
      && l'.supply[a := n] == l.supply[a := n]
  {
  }

  lemma GatheringStarts(l: Ledger, a: AssetId, p: Price)
    requires p.base > 0 && a in l.bits
    ensures Gathering(l, l, a, p, 0)
  {
  }

  /** The sum of weights that are all zero. */
  lemma {:induction false} NothingLeft(calls: Calls, w: (OrderId, CallOrder) -> int)
    requires forall i :: i in calls ==> w(i, calls[i]) == 0
    ensures Sum(calls, w) == 0
    decreases |calls|
  {
    if calls != map[] {
      var i :| i in calls;
      SumRemove(calls, i, w);
      NothingLeft(calls - {i}, w);
    }
  }

  /** The ledger once the fund is set up and the supply put back. */
  ghost function Funded(l0: Ledger, l: Ledger, a: AssetId, gathered: nat): Ledger
    requires a in l0.bits && GetInt(l0.supply, a) >= 0
  {
    var b := l0.bits[a];
    var settlement := Price(GetInt(l0.supply, a), a, gathered, b.backing);
    l.(bits := l0.bits[a := b.(settlement := Some(settlement), fund := gathered)],
      supply := l.supply[a := GetInt(l0.supply, a)])
  }

  lemma FundedIsGlobalSettlement(l0: Ledger, l: Ledger, a: AssetId, p: Price, gathered: nat)
    requires Backed(l0) && a in l0.bits && l0.bits[a].settlement.None? && GetInt(l0.supply, a) > 0 && p.base > 0
    requires Gathering(l0, l, a, p, gathered) && forall i :: i in l.calls ==> l.calls[i].mia != a
    ensures IsGlobalSettlement(l0, Funded(l0, l, a, gathered), a, p)
  {
    NothingLeft(l.calls, PaysIn(a, p));
    SumsOfNothing(l0, l, a, p, gathered);
    FundedRest(l0, l, a, p, gathered);
  }

  lemma FundedRest(l0: Ledger, l: Ledger, a: AssetId, p: Price, gathered: nat)
    requires a in l0.bits && GetInt(l0.supply, a) > 0 && p.base > 0
    requires l == l0.(balances := l.balances, calls := l.calls, supply := l.supply)
    requires l.supply[a := GetInt(l0.supply, a)] == l0.supply[a := GetInt(l0.supply, a)]
    requires forall i :: i in l.calls ==> i in l0.calls && l.calls[i] == l0.calls[i] && l.calls[i].mia != a
    requires forall i :: i in l0.calls && l0.calls[i].mia != a ==> i in l.calls
    ensures var f := Funded(l0, l, a, gathered);
      f == l0.(balances := l.balances, calls := Without(l0.calls, a), bits := f.bits)
  {
    assert a in l0.supply && l0.supply[a := l0.supply[a]] == l0.supply;
    assert Without(l0.calls, a) == l.calls;
  }

  lemma SumsOfNothing(l0: Ledger, l: Ledger, a: AssetId, p: Price, gathered: nat)
    requires p.base > 0 && a in l0.bits && GetInt(l0.supply, a) >= 0
    requires Gathering(l0, l, a, p, gathered) && forall i :: i in l.calls ==> l.calls[i].mia != a
    ensures forall k: BalanceKey :: Freed(l0, Funded(l0, l, a, gathered), a, p, k)
  {
    forall k: BalanceKey ensures Freed(l0, Funded(l0, l, a, gathered), a, p, k) {
      assert FreedSoFar(l0, l, a, p, k);
      NothingLeft(l.calls, FreedTo(a, p, k));
    }
  }

  lemma FundedConserves(l0: Ledger, l: Ledger, a: AssetId, p: Price, gathered: nat, x: AssetId)
    requires Backed(l0) && a in l0.bits && l0.bits[a].settlement.None? && GetInt(l0.supply, a) > 0 && p.base > 0
    requires HeldSoFar(l0, l, a, gathered, x) && l.bits == l0.bits
    ensures Conserved(l0, Funded(l0, l, a, gathered), x)
  {
    var f := Funded(l0, l, a, gathered);
    assert BitFits(a, l0.bits[a]);
    PutBitHolds(l, a, f.bits[a], x);
    assert Held(f, x) == Held(l.(bits := f.bits), x);
  }

  lemma FundedCovers(l0: Ledger, l: Ledger, a: AssetId, p: Price, gathered: nat, x: AssetId)
    requires Backed(l0) && a in l0.bits && l0.bits[a].settlement.None? && GetInt(l0.supply, a) > 0 && p.base > 0
    requires HeldSoFar(l0, l, a, gathered, x) && l.bits == l0.bits
    ensures Covered(Funded(l0, l, a, gathered), x)
  {
    var f := Funded(l0, l, a, gathered);
    assert Covered(l0, x);
    FundedConserves(l0, l, a, p, gathered, x);
    assert Conserved(l0, f, x);
    if x != a && x in l0.bits { assert f.bits[x] == l0.bits[x] && Debt(f, x) == Debt(l0, x); }
  }

  lemma FundedFits(l0: Ledger, l: Ledger, a: AssetId, gathered: nat)
    requires Backed(l0) && a in l0.bits && GetInt(l0.supply, a) > 0
    requires l == l0.(balances := l.balances, calls := l.calls, supply := l.supply)
    requires forall i :: i in l.calls ==> i in l0.calls && l.calls[i] == l0.calls[i] && l.calls[i].mia != a
    ensures var f := Funded(l0, l, a, gathered);
      && CallsFit(f.bits, f.calls) && SettlesFit(f.bits, f.settles)
      && forall x :: x in f.bits ==> BitFits(x, f.bits[x])
  {
    var f := Funded(l0, l, a, gathered);
    forall i | i in f.calls ensures CallFits(f.bits, f.calls[i]) { assert CallFits(l0.bits, l0.calls[i]); }
    forall x | x in f.bits ensures BitFits(x, f.bits[x]) { assert BitFits(x, l0.bits[x]); }
  }

  lemma FundedIsBacked(l0: Ledger, l: Ledger, a: AssetId, p: Price, gathered: nat)
    requires Backed(l0) && a in l0.bits && l0.bits[a].settlement.None? && GetInt(l0.supply, a) > 0 && p.base > 0
    requires Gathering(l0, l, a, p, gathered) && forall i :: i in l.calls ==> l.calls[i].mia != a
    ensures Backed(Funded(l0, l, a, gathered))
    ensures forall x: AssetId :: Conserved(l0, Funded(l0, l, a, gathered), x)
  {
    FundedFits(l0, l, a, gathered);
    forall x: AssetId ensures Covered(Funded(l0, l, a, gathered), x) && Conserved(l0, Funded(l0, l, a, gathered), x) {
      assert HeldSoFar(l0, l, a, gathered, x);
      FundedCovers(l0, l, a, p, gathered, x);
      FundedConserves(l0, l, a, p, gathered, x);
    }
  }

  // ---------- one position ----------

  /** The collateral is worth the debt at the price. */
  predicate CoversDebt(c: CallOrder, p: Price) {
    c.debt * p.quote <= c.collateral * p.base
  }

  /** A position that covers its debt pays what it is worth, rounded down; any other pays all its collateral. */
  predicate IsOwed(c: CallOrder, p: Price, pays: nat) {
    if CoversDebt(c, p) then pays * p.base <= c.debt * p.quote < (pays + 1) * p.base else pays == c.collateral
  }

  lemma OwedIsOwed(c: CallOrder, p: Price)
    requires p.base > 0
    ensures IsOwed(c, p, Owed(c, p)) && Owed(c, p) <= c.collateral
  {
    DivIsLargest(c.debt * p.quote, p.base, c.collateral);
    DivIsLargest(c.debt * p.quote, p.base, 0);
    DivIsLargest(c.collateral * p.base, p.base, c.collateral);
    if CoversDebt(c, p) {
      DivMono(c.debt * p.quote, c.collateral * p.base, p.base);
      DivUnique(c.collateral * p.base, p.base, c.collateral, 0);
    }
  }

  // ---------- the fund ----------

  ghost predicate AllCover(calls: Calls, a: AssetId, p: Price) {
    forall i :: i in calls && calls[i].mia == a ==> CoversDebt(calls[i], p)
  }

  ghost predicate NoneCovers(calls: Calls, a: AssetId, p: Price) {
    forall i :: i in calls && calls[i].mia == a ==> !CoversDebt(calls[i], p)
  }

  ghost function OneIn(a: AssetId): (OrderId, CallOrder) -> int {
    (i: OrderId, c: CallOrder) => if c.mia == a then 1 else 0
  }

  /** `paid` is the worth of `debt` at the price, short of it by less than `n` units, if by any. */
  ghost predicate IsWorthOf(paid: int, debt: int, n: int, p: Price) {
    && paid * p.base <= debt * p.quote <= (paid + n) * p.base && n >= 0
    && (n > 0 ==> debt * p.quote < (paid + n) * p.base)
  }

  /** Together, positions that cover their debts pay its worth, short of it by less than a unit each. */
  lemma {:induction false} WorthIsGathered(calls: Calls, a: AssetId, p: Price)
    requires p.base > 0 && AllCover(calls, a, p)
    ensures IsWorthOf(Sum(calls, PaysIn(a, p)), Sum(calls, DebtIn(a)), Sum(calls, OneIn(a)), p)
    decreases |calls|
  {
    if calls != map[] {
      var i :| i in calls;
      var rest, c := calls - {i}, calls[i];
      WorthIsGathered(rest, a, p);
      var paid, debt, n := Sum(rest, PaysIn(a, p)), Sum(rest, DebtIn(a)), Sum(rest, OneIn(a));
      SumRemove(calls, i, PaysIn(a, p));
      SumRemove(calls, i, DebtIn(a));
      SumRemove(calls, i, OneIn(a));
      if c.mia == a {
        OwedIsOwed(c, p);
        WorthAdds(paid, debt, n, Owed(c, p), c.debt, p);
      }
    }
  }

  lemma WorthAdds(paid: int, debt: int, n: int, pays: nat, d: nat, p: Price)
    requires IsWorthOf(paid, debt, n, p) && pays * p.base <= d * p.quote < (pays + 1) * p.base
    ensures IsWorthOf(pays + paid, d + debt, 1 + n, p)
  {
    Distribute(paid, pays, p.base);
    Distribute(debt, d, p.quote);
    Distribute(paid + n, pays + 1, p.base);
    assert paid + n + (pays + 1) == pays + paid + (1 + n);
  }

  /** Positions of which none covers its debt pay all their collateral. */
  lemma {:induction false} AllIsGathered(calls: Calls, a: AssetId, p: Price)
    requires p.base > 0 && NoneCovers(calls, a, p)
    ensures Sum(calls, PaysIn(a, p)) == Sum(calls, CollateralOf(a))
    decreases |calls|
  {
    if calls != map[] {
      var i :| i in calls;
      SumRemove(calls, i, PaysIn(a, p));
      SumRemove(calls, i, CollateralOf(a));
      if calls[i].mia == a { OwedIsOwed(calls[i], p); }
      AllIsGathered(calls - {i}, a, p);
    }
  }

  lemma {:induction false} OnesAreCounted(calls: Calls, a: AssetId)
    ensures Sum(calls, OneIn(a)) == |CallsOf(calls, a)|
    decreases |calls|
  {
    if calls != map[] {
      var i :| i in calls;
      SumRemove(calls, i, OneIn(a));
      OnesAreCounted(calls - {i}, a);
      OneMoreCall(calls, a, i);
    } else {
      assert CallsOf(calls, a) == {};
    }
  }

  lemma OneMoreCall(calls: Calls, a: AssetId, i: OrderId)
    requires i in calls
    ensures |CallsOf(calls, a)| == |CallsOf(calls - {i}, a)| + if calls[i].mia == a then 1 else 0
  {
    var rest := CallsOf(calls - {i}, a);
    if calls[i].mia == a {
      assert CallsOf(calls, a) == rest + {i};
    } else {
      assert CallsOf(calls, a) == rest;
    }
  }

  /** The fund of a global settlement: the worth of the whole supply, short of it by less than a unit for each position,
      when all positions cover their debts, and all the collateral when none does. */
  ghost predicate IsFundFor(l: Ledger, l': Ledger, a: AssetId, p: Price)
    requires a in l'.bits
  {
    var fund, supply, n := l'.bits[a].fund, GetInt(l.supply, a), |CallsOf(l.calls, a)|;
    && (AllCover(l.calls, a, p) ==> fund * p.base <= supply * p.quote < (fund + n) * p.base)
    && (NoneCovers(l.calls, a, p) ==> fund == Sum(l.calls, CollateralOf(a)))
  }

  lemma FundIsWorth(l: Ledger, l': Ledger, a: AssetId, p: Price)
    requires Backed(l) && IsGlobalSettlement(l, l', a, p) && l.bits[a].settlement.None? && GetInt(l.supply, a) > 0
    ensures IsFundFor(l, l', a, p)
  {
    assert Covered(l, a);
    OnesAreCounted(l.calls, a);
    SuppliedIsOwed(l, a);
    var i :| i in l.calls && l.calls[i].mia == a;
    assert i in CallsOf(l.calls, a);
    if AllCover(l.calls, a, p) { WorthIsGathered(l.calls, a, p); }
    if NoneCovers(l.calls, a, p) { AllIsGathered(l.calls, a, p); }
  }

  // ---------- what the borrowers get back ----------

  /** Every borrower gets back what its position does not pay. */
  lemma BorrowerGetsRest(l: Ledger, l': Ledger, a: AssetId, p: Price, i: OrderId) returns (pays: nat)
    requires Backed(l) && IsGlobalSettlement(l, l', a, p) && i in l.calls && l.calls[i].mia == a
    ensures var c := l.calls[i];
      && IsOwed(c, p, pays) && pays <= c.collateral
      && var k := BalanceKey(c.borrower, c.backing);
         Get(l'.balances, k) == Get(l.balances, k) + c.collateral - pays
  {
    var c := l.calls[i];
    var k := BalanceKey(c.borrower, c.backing);
    OwedIsOwed(c, p);
    pays := Owed(c, p);
    assert Freed(l, l', a, p, k);
    forall j | j in l.calls && j != i ensures FreedTo(a, p, k)(j, l.calls[j]) == 0 {
      assert !SamePosition(c, l.calls[j]);
    }
    SumOfOnly(l.calls, i, FreedTo(a, p, k));
  }

  // ---------- the operation ----------

  /** Every debt is worth an amount of the collateral at the price; otherwise the settlement is thrown out of. */
  ghost predicate AllPriced(calls: Calls, a: AssetId, p: Price) {
    PricedOutside(calls, a, p, {})
  }

  method GloballySettle(db: MarketDatabase, a: AssetId, p: Price) returns (ok: bool)
    requires Backed(db.Contents()) && a in db.bits && db.bits[a].settlement.None? && GetInt(db.supply, a) > 0
    requires p.base > 0 && p.baseId == a
    modifies db`balances, db`calls, db`supply, db`bits
    ensures ok == AllPriced(old(db.calls), a, p)
    ensures ok ==> IsGlobalSettlement(old(db.Contents()), db.Contents(), a, p) && Backed(db.Contents())
    ensures ok ==> IsFundFor(old(db.Contents()), db.Contents(), a, p)
    ensures ok ==> forall x: AssetId :: Conserved(old(db.Contents()), db.Contents(), x)
  {
    ghost var l0 := db.Contents();
    var originalSupply: nat := GetInt(db.supply, a);
    var gathered;
    ClosingStarts(l0, a, p);
    ok, gathered := CloseAll(db, a, p);
    if !ok { return; }
    FundedSettles(l0, db.Contents(), a, p, gathered);
    var b := db.bits[a];
    db.bits := db.bits[a := b.(settlement := Some(Price(originalSupply, a, gathered, b.backing)), fund := gathered)];
    db.supply := db.supply[a := originalSupply];
    FundIsWorth(l0, db.Contents(), a, p);
  }

  lemma FundedSettles(l0: Ledger, l: Ledger, a: AssetId, p: Price, gathered: nat)
    requires Backed(l0) && a in l0.bits && l0.bits[a].settlement.None? && GetInt(l0.supply, a) > 0 && p.base > 0
    requires Closing(l0, l, a, p, gathered, {})
    ensures var f := Funded(l0, l, a, gathered);
      && IsGlobalSettlement(l0, f, a, p) && Backed(f)
      && forall x: AssetId :: Conserved(l0, f, x)
  {
    forall i | i in l.calls ensures l.calls[i].mia != a { assert i !in CallsOf(l.calls, a); }
    FundedIsGlobalSettlement(l0, l, a, p, gathered);
    FundedIsBacked(l0, l, a, p, gathered);
  }

  /** Closes the asset's positions one after another. */
  method CloseAll(db: MarketDatabase, a: AssetId, p: Price) returns (ok: bool, gathered: nat)
    requires Closing(db.Contents(), db.Contents(), a, p, 0, CallsOf(db.calls, a)) && p.baseId == a
    modifies db`balances, db`calls, db`supply
    ensures if ok then Closing(old(db.Contents()), db.Contents(), a, p, gathered, {})
      else !AllPriced(old(db.calls), a, p)
  {
    ghost var l0 := db.Contents();
    gathered := 0;
    var todo := CallsOf(db.calls, a);
    while todo != {}
      invariant Closing(l0, db.Contents(), a, p, gathered, todo)
    {
      var id :| id in todo;
      var pays := CloseNext(l0, db, a, p, gathered, todo, id);
      if pays.None? { return false, gathered; }
      gathered := gathered + pays.value;
      todo := todo - {id};
    }
    ok := true;
  }

  ghost predicate Closing(l0: Ledger, l: Ledger, a: AssetId, p: Price, gathered: nat, todo: set<OrderId>) {
    && p.base > 0 && a in l0.bits && BackedBy(l0.calls, a, l0.bits[a].backing)
    && Gathering(l0, l, a, p, gathered) && todo == CallsOf(l.calls, a) && PricedOutside(l0.calls, a, p, todo)
  }

  ghost predicate BackedBy(calls: Calls, a: AssetId, backing: AssetId) {
    forall i :: i in calls && calls[i].mia == a ==> calls[i].backing == backing
  }

  lemma ClosingStarts(l: Ledger, a: AssetId, p: Price)
    requires Backed(l) && a in l.bits && p.base > 0
    ensures Closing(l, l, a, p, 0, CallsOf(l.calls, a))
  {
    GatheringStarts(l, a, p);
    forall i | i in l.calls && l.calls[i].mia == a ensures l.calls[i].backing == l.bits[a].backing {
      assert CallFits(l.bits, l.calls[i]);
    }
  }

  lemma ClosingStep(l0: Ledger, l: Ledger, a: AssetId, p: Price, gathered: nat, todo: set<OrderId>, id: OrderId)
    requires Closing(l0, l, a, p, gathered, todo) && id in todo
    ensures id in l.calls && l.calls[id].mia == a
    ensures Priced(l.calls, id, p) ==> Closing(l0, Closed(l, id, p), a, p, gathered + Owed(l.calls[id], p), todo - {id})
    ensures !Priced(l.calls, id, p) ==> !AllPriced(l0.calls, a, p)
  {
    ClosingGathers(l0, l, a, p, gathered, id);
    ClosingRest(l, id, p, a, 0);
    if !Priced(l.calls, id, p) { assert !Priced(l0.calls, id, p); }
  }

  ghost predicate Priced(calls: Calls, i: OrderId, p: Price)
    requires i in calls
  {
    Times(calls[i].debt, calls[i].mia, p).Some? && p.quoteId == calls[i].backing
  }

  ghost predicate PricedOutside(calls: Calls, a: AssetId, p: Price, todo: set<OrderId>) {
    forall i :: i in calls && calls[i].mia == a && i !in todo ==> Priced(calls, i, p)
  }

  /** Closes a position for its debt at the price or all its collateral. */
  method CloseOne(db: MarketDatabase, id: OrderId, p: Price) returns (pays: Option<nat>)
    requires id in db.calls && p.base > 0 && p.baseId == db.calls[id].mia
    modifies db`balances, db`calls, db`supply
    ensures pays.Some? == Priced(old(db.calls), id, p)
    ensures pays.Some? ==>
      pays.value == Owed(old(db.calls)[id], p) && db.Contents() == Closed(old(db.Contents()), id, p)
  {
    var c := db.calls[id];
    var worth := Times(c.debt, c.mia, p);
    if worth.None? || p.quoteId != c.backing { return None; }  // amounts of different assets do not compare
    pays := Some(Min(worth.value, c.collateral));
    db.FillCall(id, pays.value, c.debt);
  }

  method CloseNext(ghost l0: Ledger, db: MarketDatabase, ghost a: AssetId, p: Price, ghost gathered: nat,
      ghost todo: set<OrderId>, id: OrderId)
      returns (pays: Option<nat>)
    requires Closing(l0, db.Contents(), a, p, gathered, todo) && id in todo && p.baseId == a
    modifies db`balances, db`calls, db`supply
    ensures if pays.Some? then Closing(l0, db.Contents(), a, p, gathered + pays.value, todo - {id})
      else !AllPriced(l0.calls, a, p)
  {
    ClosingStep(l0, db.Contents(), a, p, gathered, todo, id);
    pays := CloseOne(db, id, p);
  }
}
