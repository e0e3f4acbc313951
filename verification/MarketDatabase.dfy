/** The chain database's market state and the steps that change it in place (libraries/chain/db_market.cpp). */
module MarketDatabases {
  import opened Common
  import opened Arithmetic
  import opened Prices
  import opened PriceIndices
  import opened Ledgers
  import opened Trading
  import opened OrderBooks
  import opened TradePrices
  import opened Backings

  class MarketDatabase {
    var balances: map<BalanceKey, nat>
    var limits: map<OrderId, LimitOrder>
    var calls: map<OrderId, CallOrder>
    var settles: map<OrderId, SettleOrder>
    var fees: map<AssetId, nat>
    var pendingFees: nat
    var supply: map<AssetId, int>
    var bits: map<AssetId, BitAsset>
    var nextId: OrderId  // ids are never used twice
    const rules: map<AssetId, FeeRule>

    ghost function Contents(): Ledger
      reads this
    {
      Ledger(balances, limits, calls, settles, fees, pendingFees, supply, bits)
    }

    constructor (rules: map<AssetId, FeeRule>)
      ensures Contents() == Ledger(map[], map[], map[], map[], map[], 0, map[], map[])
      ensures this.rules == rules && nextId == 0
    {
      balances, limits, calls, settles := map[], map[], map[], map[];
      fees, pendingFees, supply, bits := map[], 0, map[], map[];
      nextId := 0;
      this.rules := rules;
    }

    // ---------- balances and fees ----------

    method AdjustBalance(who: AccountId, a: AssetId, delta: int) returns (ok: bool)
      modifies this`balances
      ensures ok == (-delta <= Get(old(balances), BalanceKey(who, a)))
      ensures Contents() ==
        if !ok then old(Contents())
        else if delta >= 0 then Credit(old(Contents()), who, a, delta)
        else Debit(old(Contents()), who, a, -delta)
    {
      if delta == 0 { return true; }
      var key := BalanceKey(who, a);
      if key !in balances {
        if delta < 0 { return false; }
        balances := balances[key := delta];
      } else {
        if delta < 0 && balances[key] < -delta { return false; }
        balances := balances[key := balances[key] + delta];
      }
      ok := true;
    }

    method PayMarketFees(a: AssetId, n: nat) returns (fee: nat)
      modifies this`fees
      ensures fee == MarketFee(rules, a, n) && Contents() == AddFee(old(Contents()), a, fee)
    {
      fee := MarketFee(rules, a, n);
      if fee > 0 { fees := fees[a := Get(fees, a) + fee]; }
    }

    /** A fill's proceeds, less the market fee. */
    method PayOut(who: AccountId, a: AssetId, n: nat)
      requires FairRules(rules)
      modifies this`balances, this`fees
      ensures MarketFee(rules, a, n) <= n && Contents() == Receive(old(Contents()), who, a, n, MarketFee(rules, a, n))
    {
      FeeWithinAmount(rules, a, n);
      var fee := PayMarketFees(a, n);
      var ok := AdjustBalance(who, a, n - fee);
    }

    // ---------- limit orders ----------

    method CancelLimit(id: OrderId)
      requires id in limits
      modifies this`balances, this`limits
      ensures Contents() == Cancelled(old(Contents()), id)
    {
      var o := limits[id];
      var paid := AdjustBalance(o.seller, o.price.baseId, o.forSale);
      var refunded := AdjustBalance(o.seller, CORE, o.deferredFee);
      limits := limits - {id};
    }

    /** maybe_cull_small_order */
    method CullSmallOrder(id: OrderId) returns (culled: bool)
      requires id in limits
      modifies this`balances, this`limits
      ensures culled == !Sellable(old(limits)[id])
      ensures Contents() == if culled then Cancelled(old(Contents()), id) else old(Contents())
    {
      culled := !Sellable(limits[id]);
      if culled { CancelLimit(id); }
    }

    method FillLimit(id: OrderId, pays: nat, receives: nat, cullIfSmall: bool) returns (filled: bool)
      requires FairRules(rules) && id in limits && pays <= limits[id].forSale
      modifies this`balances, this`fees, this`pendingFees, this`limits
      ensures MarketFee(rules, old(limits)[id].price.quoteId, receives) <= receives
      ensures Contents() == FilledLimit(old(Contents()), id, pays, receives,
        MarketFee(rules, old(limits)[id].price.quoteId, receives), cullIfSmall && LeavesDust(old(limits)[id], pays))
      ensures filled == (id !in limits)
    {
      var o := limits[id];
      PayOut(o.seller, o.price.quoteId, receives);
      pendingFees := pendingFees + o.deferredFee;
      if pays == o.forSale {
        limits := limits - {id};
        return true;
      }
      limits := limits[id := o.(forSale := o.forSale - pays, deferredFee := 0)];
      filled := false;
      if cullIfSmall { filled := CullSmallOrder(id); }
    }

    /** The result has bit 1 when the taker is used up and bit 2 when the maker is. */
    method Match(taker: OrderId, maker: OrderId) returns (result: nat)
      requires FairRules(rules) && CanMatch(limits, taker, maker)
      modifies this`balances, this`fees, this`pendingFees, this`limits
      ensures Contents() == Matched(rules, old(Contents()), taker, maker)
      ensures exists t :: IsTrade(rules, old(Contents()), Contents(), taker, maker, t)
      ensures result == (if taker !in limits then 1 else 0) + (if maker !in limits then 2 else 0)
      ensures result > 0
    {
      ghost var trade := MatchIsTrade(rules, Contents(), taker, maker);
      MatchIsSafe(rules, limits, taker, maker);
      var o, p := limits[taker], limits[maker];
      ghost var t := MatchTerms(o, p);
      FillsKeepBook(limits, taker, maker, t);
      var takerPays, takerReceives;
      var asked := p.forSale * p.price.quote / p.price.base;
      if o.forSale <= asked {
        takerPays, takerReceives := o.forSale, o.forSale * p.price.base / p.price.quote;
      } else {
        takerPays, takerReceives := asked, p.forSale;
      }
      var takerFilled := FillLimit(taker, takerPays, takerReceives, false);
      var makerFilled := FillLimit(maker, takerReceives, takerPays, true);
      result := (if takerFilled then 1 else 0) + (if makerFilled then 2 else 0);
    }

    /** The first order of the price index that the taker crosses. */
    method FirstCrossing(taker: LimitOrder) returns (first: Option<OrderId>)
      requires AllSound(limits)
      ensures IsNext(limits, taker, first)
    {
      PricesAreOrdered(limits);
      var crossing := Crossing(limits, taker);
      if crossing == {} { return None; }
      var m := First(PricesOf(limits), crossing);
      first := Some(m);
    }

    /** apply_order, for an order between assets that are not market-issued. */
    method ApplyOrder(taker: OrderId) returns (filled: bool)
      requires FairRules(rules) && AllSound(limits) && taker in limits
      modifies this`balances, this`fees, this`pendingFees, this`limits
      ensures Contents() == Applied(rules, old(Contents()), taker)
      ensures filled == (taker !in limits)
    {
      ghost var end := MatchedAll(rules, Contents(), taker);
      var first := FirstCrossing(limits[taker]);
      var finished := false;
      while !finished && first.Some?
        invariant Underway(rules, Contents(), taker, finished, end)
        invariant !finished ==> IsNext(limits, limits[taker], first)
        decreases |limits|, !finished
      {
        ghost var before := Contents();
        OneMatch(rules, before, taker, first.value, end);
        var result := Match(taker, first.value);
        finished := result != 2;
        if !finished { first := FirstCrossing(limits[taker]); }
      }
      if finished { return true; }
      assert end == Contents() by { NoMatch(rules, Contents(), taker); }
      filled := CullSmallOrder(taker);
    }

    // ---------- margin positions and settlement orders ----------

    method FillCall(id: OrderId, pays: nat, receives: nat)
      requires id in calls && pays <= calls[id].collateral && receives <= calls[id].debt
      modifies this`balances, this`calls, this`supply
      ensures Contents() == FilledCall(old(Contents()), id, pays, receives)
    {
      var c := calls[id];
      var c' := c.(debt := c.debt - receives, collateral := c.collateral - pays);
      calls := calls[id := c'];
      supply := supply[c.mia := GetInt(supply, c.mia) - receives];
      if c'.debt == 0 {
        var ok := AdjustBalance(c.borrower, c.backing, c'.collateral);
        calls := calls - {id};
      }
    }

    method FillSettle(id: OrderId, pays: nat, backing: AssetId, receives: nat)
      requires FairRules(rules) && id in settles && pays <= settles[id].amount
      modifies this`balances, this`fees, this`settles
      ensures MarketFee(rules, backing, receives) <= receives
      ensures Contents() == FilledSettle(old(Contents()), id, pays, backing, receives, MarketFee(rules, backing,
        receives))
    {
      var s := settles[id];
      PayOut(s.owner, backing, receives);
      if pays < s.amount {
        settles := settles[id := s.(amount := s.amount - pays)];
      } else {
        settles := settles - {id};
      }
    }

    method CancelSettle(id: OrderId)
      requires id in settles
      modifies this`balances, this`settles
      ensures Contents() == CancelledSettle(old(Contents()), id)
    {
      var s := settles[id];
      var ok := AdjustBalance(s.owner, s.mia, s.amount);
      settles := settles - {id};
    }

    /** The listed position of the lowest collateral per debt, the oldest of equals; the code asserts that there is
        one. */
    method LeastCollateralized(mia: AssetId) returns (call: Option<OrderId>)
      requires CallsFit(bits, calls) && mia in bits && bits[mia].backing != mia
      ensures if call.Some? then IsLeast(calls, mia, call.value) else ListedCalls(calls, mia) == {}
    {
      DebtPricesAreOrdered(bits, calls, mia);
      var listed := ListedCalls(calls, mia);
      if listed == {} { return None; }
      var least := First(DebtPrices(calls, mia), listed);
      call := Some(least);
    }

    /** match, of a position with a settlement order: refused by an exception when there is no collateral or nothing to
        settle, and a black swan when the position cannot pay. */
    method MatchSettle(call: OrderId, settle: OrderId, price: Price, max: nat) returns (r: SettleMatch)
      requires FairRules(rules) && CanSettle(Contents(), call, settle, price)
      modifies this`balances, this`fees, this`calls, this`supply, this`settles
      ensures IsSettlement(rules, old(Contents()), Contents(), call, settle, price, max, r)
    {
      if calls[call].collateral == 0 || settles[settle].amount == 0 || calls[call].debt == 0 { return Refused; }
      var n := Min(Min(settles[settle].amount, max), calls[call].debt);
      PaysFit(n, price);
      var pays := Times(n, calls[call].mia, price).value;
      if pays >= calls[call].collateral { return BlackSwan; }
      FillCall(call, pays, n);
      FillSettle(settle, n, price.quoteId, pays);
      r := Settled(n);
    }
  }

  // ---------- forced settlement ----------

  function CallsOf(calls: map<OrderId, CallOrder>, mia: AssetId): set<OrderId> {
    set i | i in calls && calls[i].mia == mia
  }

  /** The inverse of a position's collateralization: the highest comes first. */
  function DebtPrices(calls: map<OrderId, CallOrder>, mia: AssetId): Index {
    map i | i in calls && calls[i].mia == mia :: Price(calls[i].debt, mia, calls[i].collateral, calls[i].backing)
  }

  /** The lookup by collateral starts from the lowest price of all, one for the maximum share supply. */
  predicate Listed(c: CallOrder) {
    AtLeast(Price(c.collateral, c.backing, c.debt, c.mia), Price(1, c.backing, MAX_SHARE_SUPPLY, c.mia))
  }

  function ListedCalls(calls: map<OrderId, CallOrder>, mia: AssetId): set<OrderId> {
    set i | i in calls && calls[i].mia == mia && Listed(calls[i])
  }

  ghost predicate IsLeast(calls: map<OrderId, CallOrder>, mia: AssetId, call: OrderId) {
    FirstAmong(DebtPrices(calls, mia), ListedCalls(calls, mia), call)
  }

  lemma DebtPricesAreOrdered(bits: map<AssetId, BitAsset>, calls: map<OrderId, CallOrder>, mia: AssetId)
    requires CallsFit(bits, calls) && mia in bits && bits[mia].backing != mia
    ensures AllOrdered(DebtPrices(calls, mia)) && CallsOf(calls, mia) == DebtPrices(calls, mia).Keys
    ensures ListedCalls(calls, mia) <= DebtPrices(calls, mia).Keys
  {
    forall i | i in calls && calls[i].mia == mia ensures DebtPrices(calls, mia)[i].base > 0 {
      assert CallFits(bits, calls[i]);
    }
  }

  /** A position without collateral is passed over, and none other while debts stay within the maximum supply. */
  lemma ListedHasCollateral(c: CallOrder)
    requires c.debt > 0
    ensures Listed(c) ==> c.collateral > 0
    ensures c.collateral > 0 && c.debt <= MAX_SHARE_SUPPLY ==> Listed(c)
  {
    if c.collateral > 0 { MulMono(1, c.collateral, MAX_SHARE_SUPPLY); }
  }

  /** No other position that is listed has less collateral per debt, and none as little is older. */
  lemma LeastIsFirst(calls: map<OrderId, CallOrder>, mia: AssetId, call: OrderId, other: OrderId)
    requires IsLeast(calls, mia, call) && other in ListedCalls(calls, mia)
    requires calls[call].backing == calls[other].backing
    ensures calls[call].collateral * calls[other].debt <= calls[other].collateral * calls[call].debt
    ensures calls[call].collateral * calls[other].debt == calls[other].collateral * calls[call].debt ==> call <= other
  {
    if other != call {
      assert Before(DebtPrices(calls, mia)[call], call, DebtPrices(calls, mia)[other], other);
    }
  }

  /** The settlement price is made from the settlement order's own balance. */
  ghost predicate CanSettle(l: Ledger, call: OrderId, settle: OrderId, price: Price) {
    && call in l.calls && settle in l.settles && l.calls[call].mia == l.settles[settle].mia
    && price.baseId == l.calls[call].mia && price.quoteId == l.calls[call].backing && price.baseId != price.quoteId
    && l.settles[settle].amount <= price.base && price.base > 0 && price.quote <= MAX_SHARE_SUPPLY
  }

  function SettledAmount(l: Ledger, call: OrderId, settle: OrderId, max: nat): nat
    requires call in l.calls && settle in l.settles
  {
    Min(Min(l.settles[settle].amount, max), l.calls[call].debt)
  }

  function SettlementPays(l: Ledger, call: OrderId, settle: OrderId, price: Price, max: nat): nat
    requires call in l.calls && settle in l.settles && price.base > 0
  {
    SettledAmount(l, call, settle, max) * price.quote / price.base
  }

  datatype SettleMatch = Settled(amount: nat) | BlackSwan | Refused

  /** The outcome of a match: refused without collateral, nothing when the collateral would not cover the price,
      otherwise both sides are filled by as much as the order, the limit and the debt allow. */
  ghost predicate IsSettlement(rules: map<AssetId, FeeRule>, l: Ledger, l': Ledger, call: OrderId, settle: OrderId,
                               price: Price, max: nat, r: SettleMatch)
    requires FairRules(rules) && CanSettle(l, call, settle, price)
  {
    var n, pays := SettledAmount(l, call, settle, max), SettlementPays(l, call, settle, price, max);
    FeeWithinAmount(rules, price.quoteId, pays);
    if l.calls[call].collateral == 0 || l.settles[settle].amount == 0 || l.calls[call].debt == 0 then
      r == Refused && l' == l
    else if pays >= l.calls[call].collateral then r == BlackSwan && l' == l
    else r == Settled(n) && l' == MatchedSettle(l, call, settle, n, pays, MarketFee(rules, price.quoteId, pays))
  }

  lemma PaysFit(n: nat, price: Price)
    requires n <= price.base && price.base > 0 && price.quote <= MAX_SHARE_SUPPLY
    ensures n * price.quote / price.base <= price.quote
    ensures Times(n, price.baseId, price) == Some(n * price.quote / price.base)
  {
    MulMono(n, price.base, price.quote);
    DivMono(n * price.quote, price.base * price.quote, price.base);
    DivUnique(price.base * price.quote, price.base, price.quote, 0);
  }

  // ---------- the matching loop ----------

  ghost predicate IsNext(b: Book, taker: LimitOrder, first: Option<OrderId>) {
    if first.Some? then IsFirst(b, taker, first.value) else Crossing(b, taker) == {}
  }

  /** The matches still to come lead to `end`. */
  ghost predicate Underway(rules: map<AssetId, FeeRule>, l: Ledger, taker: OrderId, finished: bool, end: Ledger) {
    && FairRules(rules) && AllSound(l.limits) && (finished <==> taker !in l.limits)
    && end == if finished then l else MatchedAll(rules, l, taker)
  }

  lemma OneMatch(rules: map<AssetId, FeeRule>, l: Ledger, taker: OrderId, m: OrderId, end: Ledger)
    requires Underway(rules, l, taker, false, end) && IsFirst(l.limits, l.limits[taker], m)
    ensures var l' := Matched(rules, l, taker, m);
      && Underway(rules, l', taker, taker !in l'.limits, end)
      && (taker in l'.limits ==> |l'.limits| < |l.limits|)
      && |l'.limits| <= |l.limits|
  {
    MatchedAllStep(rules, l, taker, m);
    var l' := Matched(rules, l, taker, m);
    if m !in l'.limits { Fewer(l.limits, l'.limits, m); } else { Fewer(l.limits, l'.limits, taker); }
  }

  lemma NoMatch(rules: map<AssetId, FeeRule>, l: Ledger, taker: OrderId)
    requires FairRules(rules) && AllSound(l.limits) && taker in l.limits && IsNext(l.limits, l.limits[taker], None)
    ensures MatchedAll(rules, l, taker) == l
  {
  }
}
