/** Whole runs of market steps: until a global settlement an asset's supply, the debt in it and what is held of it stay
    equal; after one its fund covers every holder. */
module BackedRuns {
  import opened Common
  import opened Prices
  import opened Ledgers
  import opened Trading
  import opened LimitMarkets
  import opened Backings
  import opened ForcedSettlements
  import opened ExpiredSettlements
  import opened GlobalSettlements
  import opened BitAssetOperations
  import opened Positions
  import opened MarginCalls

  /** A step of the market, with the amounts it moves. */
  datatype Step =
    | Place(order: OrderId, op: NewOrder)
    | ChargeDeferred(who: AccountId, fee: nat)  // at the end of the operation that placed an order
    | PayFee(who: AccountId, fee: nat)          // of any other operation
    | Trade(taker: OrderId, maker: OrderId, terms: Terms, takerFee: nat, makerFee: nat, cull: bool)
    | CancelOrder(order: OrderId)
    | Call(call: OrderId, order: OrderId, amount: nat, pays: nat, fee: nat, cull: bool)
    | SettleMatch(call: OrderId, settle: OrderId, amount: nat, pays: nat, fee: nat)
    | CancelSettlement(settle: OrderId)
    | SetVolume(mia: AssetId, settled: nat)
    | Revise(mia: AssetId, bit: BitAsset)  // a feed is published or expires, or options are changed
    | ChangePosition(id: OrderId, position: CallOrder, collateral: int, debt: int)
    | RequestSettlement(who: AccountId, mia: AssetId, amount: nat, date: nat, id: OrderId)
    | RedeemFromFund(who: AccountId, mia: AssetId, amount: nat)
    | ClaimFee(who: AccountId, assetId: AssetId, amount: nat)
    | SettleGlobally(mia: AssetId, price: Price, closed: Ledger, gathered: nat)  // the ledger with all positions closed

  /** The state that a step leads to. */
  ghost predicate Leads(l: Ledger, s: Step, l': Ledger)
    requires Backed(l)
  {
    match s
    case Place(order, op) => CanEnter(l, op) && order !in l.limits && l' == Entered(l, order, op)
    case ChargeDeferred(who, fee) => CanDebit(l, who, CORE, fee) && l' == Debit(l, who, CORE, fee)
    case PayFee(who, fee) =>
      CanDebit(l, who, CORE, fee) && l' == Debit(l.(pendingFees := l.pendingFees + fee), who, CORE, fee)
    case Trade(taker, maker, t, takerFee, makerFee, cull) =>
      && taker in l.limits && maker in l.limits && taker != maker && Opposite(l.limits[taker], l.limits[maker])
      && t.takerPays <= l.limits[taker].forSale && t.takerReceives <= l.limits[maker].forSale
      && takerFee <= t.takerReceives && makerFee <= t.takerPays
      && l' == Traded(l, taker, maker, t, takerFee, makerFee, cull)
    case CancelOrder(order) => order in l.limits && l' == Cancelled(l, order)
    case Call(call, order, amount, pays, fee, cull) =>
      && call in l.calls && order in l.limits && fee <= pays
      && l.limits[order].price.baseId == l.calls[call].mia && l.limits[order].price.quoteId == l.calls[call].backing
      && amount <= l.calls[call].debt && amount <= l.limits[order].forSale && pays <= l.calls[call].collateral
      && l' == MarginCalled(l, call, order, amount, pays, fee, cull)
    case SettleMatch(call, settle, amount, pays, fee) =>
      && call in l.calls && settle in l.settles && l.settles[settle].mia == l.calls[call].mia && fee <= pays
      && amount <= l.calls[call].debt && amount <= l.settles[settle].amount && pays < l.calls[call].collateral
      && l' == MatchedSettle(l, call, settle, amount, pays, fee)
    case CancelSettlement(settle) => settle in l.settles && l' == CancelledSettle(l, settle)
    case SetVolume(mia, settled) => mia in l.bits && l' == WithVolume(l, mia, settled)
    case Revise(mia, b) =>
      && mia in l.bits && BitFits(mia, b)
      && b.backing == l.bits[mia].backing && b.settlement == l.bits[mia].settlement && b.fund == l.bits[mia].fund
      && l' == l.(bits := l.bits[mia := b])
    case ChangePosition(id, c, dc, dd) => CanChange(l, id, c, dc, dd) && l' == Borrowed(l, id, c, dc, dd)
    case RequestSettlement(who, mia, n, date, id) =>
      mia in l.bits && CanDebit(l, who, mia, n) && id !in l.settles && l' == Queued(l, who, mia, n, date, id)
    case RedeemFromFund(who, mia, n) =>
      && mia in l.bits && l.bits[mia].settlement.Some? && CanDebit(l, who, mia, n)
      && (HolderIsPaid(l, who, mia, n); l' == Redeemed(l, who, mia, n))
    case ClaimFee(who, a, n) => n <= Get(l.fees, a) && l' == Claimed(l, who, a, n)
    case SettleGlobally(mia, p, closed, gathered) =>
      && mia in l.bits && l.bits[mia].settlement.None? && GetInt(l.supply, mia) > 0
      && Closing(l, closed, mia, p, gathered, {}) && l' == Funded(l, closed, mia, gathered)
  }

  ghost predicate CanChange(l: Ledger, id: OrderId, c: CallOrder, dc: int, dd: int) {
    && c.mia in l.bits && l.bits[c.mia].settlement.None? && c.backing == l.bits[c.mia].backing
    && (if id in l.calls then l.calls[id] == c else c.debt == 0 && c.collateral == 0)
    && (id !in l.calls ==> forall i :: i in l.calls ==> l.calls[i].borrower != c.borrower || l.calls[i].mia != c.mia)
    && CanBorrow(l, c, dc, dd) && PositionFits(id !in l.calls, c, dc, dd)
  }

  /** Deferred fees that a step counts before they are charged, less those that it charges. */
  function Unpaid(s: Step): int {
    match s
    case Place(_, op) => op.fee
    case ChargeDeferred(_, fee) => -(fee as int)
    case _ => 0
  }

  /** What is outside stays outside; fees not yet charged are counted twice in the core asset. */
  ghost predicate SameOutside(l: Ledger, l': Ledger, a: AssetId, unpaid: int) {
    Outside(l', a) == Outside(l, a) - if a == CORE then unpaid else 0
  }

  ghost predicate KeepsOutside(l: Ledger, l': Ledger, unpaid: int) {
    forall a: AssetId :: SameOutside(l, l', a, unpaid)
  }

  /** Steps that leave positions, supplies and settlement orders alone. */
  lemma TradingKeepsBacked(l: Ledger, l': Ledger, unpaid: int)
    requires Backed(l) && KeepsOutside(l, l', unpaid)
    requires l' == l.(balances := l'.balances, fees := l'.fees, pendingFees := l'.pendingFees, limits := l'.limits)
    ensures Backed(l')
  {
    forall x: AssetId ensures Covered(l', x) {
      assert Covered(l, x) && SameOutside(l, l', x, unpaid);
      if x in l.bits { assert BitFits(x, l.bits[x]); }
    }
  }

  lemma MovedIsOutside(l: Ledger, l': Ledger, mia: AssetId)
    requires MovedTogether(l, l', mia)
    ensures KeepsOutside(l, l', 0)
  {
    forall a: AssetId ensures SameOutside(l, l', a, 0) { assert Moved(l, l', a, mia); }
  }

  lemma ConservedIsOutside(l: Ledger, l': Ledger)
    requires forall x: AssetId :: Conserved(l, l', x)
    ensures KeepsOutside(l, l', 0)
  {
    forall a: AssetId ensures SameOutside(l, l', a, 0) { assert Conserved(l, l', a); }
  }

  lemma TradeSteps(l: Ledger, s: Step, l': Ledger)
    requires Backed(l) && (s.Place? || s.ChargeDeferred? || s.PayFee? || s.Trade? || s.CancelOrder?) && Leads(l, s, l')
    ensures Backed(l') && KeepsOutside(l, l', Unpaid(s))
  {
    forall a: AssetId ensures SameOutside(l, l', a, Unpaid(s)) {
      match s
      case Place(order, op) => EnteredHolds(l, order, op, a);
      case ChargeDeferred(who, fee) => DebitHolds(l, who, CORE, fee, a);
      case PayFee(who, fee) => DebitHolds(l.(pendingFees := l.pendingFees + fee), who, CORE, fee, a);
      case Trade(taker, maker, t, takerFee, makerFee, cull) =>
        TradeHolds(l, taker, maker, t, takerFee, makerFee, cull, a);
      case CancelOrder(order) => CancelHolds(l, order, a);
    }
    TradingKeepsBacked(l, l', Unpaid(s));
  }

  lemma MatchSteps(l: Ledger, s: Step, l': Ledger)
    requires Backed(l) && (s.Call? || s.SettleMatch? || s.CancelSettlement?) && Leads(l, s, l')
    ensures Backed(l') && KeepsOutside(l, l', 0)
  {
    if s.Call? {
      CallKeepsBacked(l, s.call, s.order, s.amount, s.pays, s.fee, s.cull);
      CallMovesTogether(l, s.call, s.order, s.amount, s.pays, s.fee, s.cull);
      MovedIsOutside(l, l', l.calls[s.call].mia);
    } else if s.SettleMatch? {
      MatchedSettleKeepsBacked(l, s.call, s.settle, s.amount, s.pays, s.fee);
      MatchedSettleMovesTogether(l, s.call, s.settle, s.amount, s.pays, s.fee);
      MovedIsOutside(l, l', l.calls[s.call].mia);
    } else {
      CancelledSettleKeepsBacked(l, s.settle);
      MovedIsOutside(l, l', l.settles[s.settle].mia);
    }
  }

  lemma RedemptionSteps(l: Ledger, s: Step, l': Ledger)
    requires Backed(l) && s.RedeemFromFund? && Leads(l, s, l')
    ensures Backed(l') && KeepsOutside(l, l', 0)
  {
    HolderIsPaid(l, s.who, s.mia, s.amount);
    RedeemedIsBacked(l, s.who, s.mia, s.amount);
    forall a: AssetId ensures SameOutside(l, l', a, 0) { RedeemedHolds(l, s.who, s.mia, s.amount, a); }
  }

  lemma BitSteps(l: Ledger, s: Step, l': Ledger)
    requires Backed(l) && (s.SetVolume? || s.Revise?) && Leads(l, s, l')
    ensures Backed(l') && KeepsOutside(l, l', 0)
  {
    if s.SetVolume? { VolumeKeepsBacked(l, s.mia, s.settled); } else { RevisionKeepsBacked(l, s.mia, s.bit); }
    forall a: AssetId ensures SameOutside(l, l', a, 0) { assert Held(l', a) == Held(l, a); }
  }

  /** Every step keeps every asset backed and what is outside where it is, up to fees not yet charged. */
  lemma StepKeepsBacked(l: Ledger, s: Step, l': Ledger)
    requires Backed(l) && Leads(l, s, l')
    ensures Backed(l') && KeepsOutside(l, l', Unpaid(s))
  {
    match s
    case Place(_, _) => TradeSteps(l, s, l');
    case ChargeDeferred(_, _) => TradeSteps(l, s, l');
    case PayFee(_, _) => TradeSteps(l, s, l');
    case Trade(_, _, _, _, _, _) => TradeSteps(l, s, l');
    case CancelOrder(_) => TradeSteps(l, s, l');
    case Call(_, _, _, _, _, _) => MatchSteps(l, s, l');
    case SettleMatch(_, _, _, _, _) => MatchSteps(l, s, l');
    case CancelSettlement(_) => MatchSteps(l, s, l');
    case SetVolume(_, _) => BitSteps(l, s, l');
    case Revise(_, _) => BitSteps(l, s, l');
    case ChangePosition(id, c, dc, dd) =>
      BorrowedIsBacked(l, id, c, dc, dd);
      MovedIsOutside(l, l', c.mia);
    case RequestSettlement(who, mia, n, date, id) =>
      QueuedIsBacked(l, who, mia, n, date, id);
      ConservedIsOutside(l, l');
    case RedeemFromFund(_, _, _) => RedemptionSteps(l, s, l');
    case ClaimFee(who, a, n) =>
      ClaimKeepsBacked(l, who, a, n);
      ConservedIsOutside(l, l');
    case SettleGlobally(mia, p, closed, gathered) =>
      FundedSettles(l, closed, mia, p, gathered);
      ConservedIsOutside(l, l');
  }

  // ---------- which steps leave a position without collateral ----------

  /** A call that uses up the collateral of a position still in debt, or more debt than there can be of an asset. */
  predicate Strips(l: Ledger, s: Step, a: AssetId) {
    match s
    case Call(call, _, amount, pays, _, _) =>
      && call in l.calls && l.calls[call].mia == a
      && pays == l.calls[call].collateral && amount < l.calls[call].debt
    case ChangePosition(_, c, _, dd) => c.mia == a && c.debt + dd > MAX_SHARE_SUPPLY
    case _ => false
  }

  /** Every other step keeps an asset's positions collateralized, and these never do. */
  lemma StepKeepsCollateral(l: Ledger, s: Step, l': Ledger, a: AssetId)
    requires Backed(l) && Leads(l, s, l') && Collateralized(l.calls, a)
    ensures Collateralized(l'.calls, a) <==> !Strips(l, s, a)
  {
    if s.Call? {
      CallStrips(l, s, l', a);
    } else if s.SettleMatch? {
      FilledCallKeepsCollateral(l, s.call, s.pays, s.amount);
    } else if s.ChangePosition? {
      ChangeStrips(l.calls, s.id, s.position, s.collateral, s.debt, a);
    } else {
      PositionsStay(l, s, l');
    }
  }

  /** Steps that neither fill nor change positions may close them. */
  lemma PositionsStay(l: Ledger, s: Step, l': Ledger)
    requires Backed(l) && Leads(l, s, l') && !s.Call? && !s.SettleMatch? && !s.ChangePosition?
    ensures forall i :: i in l'.calls ==> i in l.calls && l'.calls[i] == l.calls[i]
  {
  }

  lemma CallStrips(l: Ledger, s: Step, l': Ledger, a: AssetId)
    requires Backed(l) && s.Call? && Leads(l, s, l') && Collateralized(l.calls, a)
    ensures Collateralized(l'.calls, a) <==> !Strips(l, s, a)
  {
    CallKeepsBacked(l, s.call, s.order, s.amount, s.pays, s.fee, s.cull);
    assert l'.calls == FilledCall(l, s.call, s.pays, s.amount).calls;
  }

  lemma ChangeStrips(calls: Calls, id: OrderId, c: CallOrder, dc: int, dd: int, a: AssetId)
    requires PositionFits(id !in calls, c, dc, dd) && (id in calls ==> calls[id] == c) && Collateralized(calls, a)
    ensures Collateralized(ChangedCalls(calls, id, c, dc, dd), a) <==> !(c.mia == a && c.debt + dd > MAX_SHARE_SUPPLY)
  {
    var calls' := ChangedCalls(calls, id, c, dc, dd);
    if c.debt + dd > 0 { assert id in calls' && calls'[id].debt == c.debt + dd; }
  }

  // ---------- runs ----------

  /** A run: the ledgers it passes through, each led to by a step from the one before. */
  ghost predicate IsRun(run: seq<Ledger>, steps: seq<Step>) {
    && |run| == |steps| + 1 && Backed(run[0])
    && forall i: nat :: i < |steps| ==> FollowsBy(run[i], steps[i], run[i + 1])
  }

  ghost predicate FollowsBy(l: Ledger, s: Step, l': Ledger) {
    Backed(l) ==> Leads(l, s, l')
  }

  function AllUnpaid(steps: seq<Step>): int {
    if steps == [] then 0 else AllUnpaid(steps[..|steps| - 1]) + Unpaid(steps[|steps| - 1])
  }

  lemma {:induction false} RunsKeepBacked(run: seq<Ledger>, steps: seq<Step>, i: nat, a: AssetId)
    requires IsRun(run, steps) && i <= |steps|
    ensures Backed(run[i])
    ensures Outside(run[i], a) == Outside(run[0], a) - if a == CORE then AllUnpaid(steps[..i]) else 0
  {
    if i > 0 {
      RunsKeepBacked(run, steps, i - 1, a);
      assert FollowsBy(run[i - 1], steps[i - 1], run[i - 1 + 1]);
      StepKeepsBacked(run[i - 1], steps[i - 1], run[i]);
      assert SameOutside(run[i - 1], run[i], a, Unpaid(steps[i - 1]));
      assert steps[..i][..i - 1] == steps[..i - 1];
    }
  }

  /** At every point of every run the supply of an asset is what is held of it, if it was at the beginning; before its
      global settlement it is also the debt, and after it every balance is within the reach of the fund. */
  lemma SupplyIsDebtIsHeld(run: seq<Ledger>, steps: seq<Step>, i: nat, a: AssetId)
    requires IsRun(run, steps) && i <= |steps| && a in run[i].bits
    requires GetInt(run[0].supply, a) == Held(run[0], a)
    ensures GetInt(run[i].supply, a) == Held(run[i], a)
    ensures run[i].bits[a].settlement.None? ==> GetInt(run[i].supply, a) == Debt(run[i], a)
    ensures run[i].bits[a].settlement.Some? ==>
      && run[i].bits[a].settlement.value.base > 0
      && forall who: AccountId :: WithinFund(run[i], who, a)
  {
    RunsKeepBacked(run, steps, i, a);
    var l := run[i];
    assert Covered(l, a) && BitFits(a, l.bits[a]);
    if l.bits[a].settlement.Some? {
      forall who: AccountId ensures WithinFund(l, who, a) {
        HolderIsPaid(l, who, a, Get(l.balances, BalanceKey(who, a)));
      }
    }
  }

  ghost predicate WithinFund(l: Ledger, who: AccountId, a: AssetId)
    requires a in l.bits && l.bits[a].settlement.Some? && l.bits[a].settlement.value.base > 0
  {
    var p := l.bits[a].settlement.value;
    Get(l.balances, BalanceKey(who, a)) * p.quote / p.base <= l.bits[a].fund
  }
}
