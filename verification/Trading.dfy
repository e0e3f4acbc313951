/**
 * Fills, matches and cancellations (libraries/chain/db_market.cpp) as functions on the ledger, and what
 * they conserve.
 */
module Trading {
  import opened Common
  import opened Arithmetic
  import opened Prices
  import opened Ledgers

  /** An asset's market fee: whether it is charged, its percentage and its cap. */
  datatype FeeRule = FeeRule(charged: bool, percent: nat, maxFee: nat)

  /** Percentages are at most 100%. */
  ghost predicate FairRules(rules: map<AssetId, FeeRule>) {
    forall a :: a in rules ==> rules[a].percent <= HUNDRED_PERCENT
  }

  /** calculate_market_fee */
  function MarketFee(rules: map<AssetId, FeeRule>, a: AssetId, n: nat): nat {
    if a !in rules || !rules[a].charged || rules[a].percent == 0 then 0
    else Min(n * rules[a].percent / HUNDRED_PERCENT, rules[a].maxFee)
  }

  lemma FeeWithinAmount(rules: map<AssetId, FeeRule>, a: AssetId, n: nat)
    requires FairRules(rules)
    ensures MarketFee(rules, a, n) <= n
  {
    if a in rules {
      MulMono2(n, n, rules[a].percent, HUNDRED_PERCENT);
      DivMono(n * rules[a].percent, n * HUNDRED_PERCENT, HUNDRED_PERCENT);
    }
  }

  /** A fee is the asset's percentage, rounded down, but at most its cap; where none is charged it is nothing. */
  predicate IsFee(rules: map<AssetId, FeeRule>, a: AssetId, n: nat, fee: nat) {
    if a in rules && rules[a].charged then
      && fee <= rules[a].maxFee && fee * HUNDRED_PERCENT <= n * rules[a].percent
      && (fee < rules[a].maxFee ==> n * rules[a].percent < (fee + 1) * HUNDRED_PERCENT)
    else fee == 0
  }

  lemma MarketFeeIsFee(rules: map<AssetId, FeeRule>, a: AssetId, n: nat)
    ensures IsFee(rules, a, n, MarketFee(rules, a, n))
  {
    if a in rules && rules[a].charged {
      var fee := MarketFee(rules, a, n);
      DivIsLargest(n * rules[a].percent, HUNDRED_PERCENT, fee);
    }
  }

  /** What is received, less the market fee, which goes to the asset's accumulated fees. */
  function Receive(l: Ledger, who: AccountId, a: AssetId, n: nat, fee: nat): (l': Ledger)
    requires fee <= n
    ensures l' == l.(balances := l'.balances, fees := l'.fees)
  {
    Credit(AddFee(l, a, fee), who, a, n - fee)
  }

  lemma ReceiveHolds(l: Ledger, who: AccountId, a: AssetId, n: nat, fee: nat, x: AssetId)
    requires fee <= n
    ensures Held(Receive(l, who, a, n, fee), x) == Held(l, x) + if x == a then n else 0
  {
    AddFeeHolds(l, a, fee, x);
    CreditHolds(AddFee(l, a, fee), who, a, n - fee, x);
  }

  // ---------- limit orders ----------

  /** amount_to_receive, which the orders on the book can always compute. */
  function ToReceive(o: LimitOrder): nat
    requires o.price.base > 0
  {
    o.forSale * o.price.quote / o.price.base
  }

  /** cancel_order: the amount for sale and the deferred fee go back to the seller. */
  function Cancelled(l: Ledger, id: OrderId): (l': Ledger)
    requires id in l.limits
    ensures l' == l.(balances := l'.balances, limits := l.limits - {id})
  {
    var o := l.limits[id];
    var refunded := Credit(Credit(l, o.seller, o.price.baseId, o.forSale), o.seller, CORE, o.deferredFee);
    refunded.(limits := refunded.limits - {id})
  }

  /** fill_order on a limit order: the fee is collected, the seller paid, the deferred fee becomes pending, and the
      order is removed or reduced; what is left of it is cancelled if `cull`. */
  function FilledLimit(l: Ledger, id: OrderId, pays: nat, receives: nat, fee: nat, cull: bool): (l': Ledger)
    requires id in l.limits && pays <= l.limits[id].forSale && fee <= receives
    ensures l' == l.(balances := l'.balances, fees := l'.fees, pendingFees := l'.pendingFees, limits := l'.limits)
    ensures l'.limits == AfterFill(l.limits, id, pays, cull)
  {
    var o := l.limits[id];
    var l1 := Paid(l, o, receives, fee);
    if pays == o.forSale then l1.(limits := l1.limits - {id})
    else
      var l2 := l1.(limits := l1.limits[id := Rest(o, pays)]);
      if cull then Cancelled(l2, id) else l2
  }

  /** What a fill does to the orders. */
  function AfterFill(book: map<OrderId, LimitOrder>, id: OrderId, pays: nat, cull: bool): map<OrderId, LimitOrder>
    requires id in book && pays <= book[id].forSale
  {
    if pays < book[id].forSale && !cull then book[id := Rest(book[id], pays)] else book - {id}
  }

  /** What the seller and the collectors of fees get from a fill. */
  function Paid(l: Ledger, o: LimitOrder, receives: nat, fee: nat): (l': Ledger)
    requires fee <= receives
    ensures l' == l.(balances := l'.balances, fees := l'.fees, pendingFees := l'.pendingFees)
  {
    var paid := Receive(l, o.seller, o.price.quoteId, receives, fee);
    paid.(pendingFees := paid.pendingFees + o.deferredFee)
  }

  /** What a fill leaves of an order. */
  function Rest(o: LimitOrder, pays: nat): LimitOrder
    requires pays <= o.forSale
  {
    o.(forSale := o.forSale - pays, deferredFee := 0)
  }

  lemma PaidHolds(l: Ledger, o: LimitOrder, receives: nat, fee: nat, x: AssetId)
    requires fee <= receives
    ensures Held(Paid(l, o, receives, fee), x) == Held(l, x)
      + (if x == o.price.quoteId then receives else 0) + (if x == CORE then o.deferredFee else 0)
  {
    ReceiveHolds(l, o.seller, o.price.quoteId, receives, fee, x);
  }

  lemma CancelHolds(l: Ledger, id: OrderId, x: AssetId)
    requires id in l.limits
    ensures Held(Cancelled(l, id), x) == Held(l, x)
  {
    var o := l.limits[id];
    var l1 := Credit(l, o.seller, o.price.baseId, o.forSale);
    CreditHolds(l, o.seller, o.price.baseId, o.forSale, x);
    CreditHolds(l1, o.seller, CORE, o.deferredFee, x);
    DropLimitHolds(Credit(l1, o.seller, CORE, o.deferredFee), id, x);
  }

  /** A fill takes what the order pays out of the books and brings what it receives in. */
  lemma FillLimitHolds(l: Ledger, id: OrderId, pays: nat, receives: nat, fee: nat, cull: bool, x: AssetId)
    requires id in l.limits && pays <= l.limits[id].forSale && fee <= receives
    ensures Held(FilledLimit(l, id, pays, receives, fee, cull), x) == Held(l, x)
      + (if x == l.limits[id].price.quoteId then receives else 0) - (if x == l.limits[id].price.baseId then pays else 0)
  {
    var o := l.limits[id];
    var l1 := Paid(l, o, receives, fee);
    PaidHolds(l, o, receives, fee, x);
    if pays == o.forSale {
      DropLimitHolds(l1, id, x);
    } else {
      PutLimitHolds(l1, id, Rest(o, pays), x);
      CancelHolds(l1.(limits := l1.limits[id := Rest(o, pays)]), id, x);
    }
  }

  // ---------- matching two limit orders ----------

  /** An order that may rest on the book: it sells something, at a proper price, and what it asks for is a valid
      amount. */
  ghost predicate Sound(o: LimitOrder) {
    && Positive(o.price) && 0 < o.forSale <= MAX_SHARE_SUPPLY
    && ToReceive(o) <= MAX_SHARE_SUPPLY
  }

  predicate Opposite(o: LimitOrder, p: LimitOrder) {
    o.price.baseId == p.price.quoteId && o.price.quoteId == p.price.baseId
  }

  /** The matching test: the resting order's price is at or above the inverse of the new one's. */
  predicate Crosses(taker: LimitOrder, maker: LimitOrder) {
    Opposite(taker, maker) && AtLeast(maker.price, Inverse(taker.price))
  }

  /** What the taker pays and receives when matched at the maker's price. */
  datatype Terms = Terms(takerPays: nat, takerReceives: nat)

  function MatchTerms(taker: LimitOrder, maker: LimitOrder): Terms
    requires maker.price.base > 0 && maker.price.quote > 0
  {
    var asked := maker.forSale * maker.price.quote / maker.price.base;
    if taker.forSale <= asked then Terms(taker.forSale, taker.forSale * maker.price.base / maker.price.quote)
    else Terms(asked, maker.forSale)
  }

  /** The code computes the terms with asset * price, which cannot overflow for orders on the book. */
  lemma TermsAreProducts(taker: LimitOrder, maker: LimitOrder)
    requires Sound(taker) && Sound(maker) && Opposite(taker, maker)
    ensures Times(maker.forSale, maker.price.baseId, maker.price) == Some(ToReceive(maker))
    ensures taker.forSale <= ToReceive(maker) ==>
      Times(taker.forSale, taker.price.baseId, maker.price) == Some(MatchTerms(taker, maker).takerReceives)
  {
    if taker.forSale <= ToReceive(maker) { TermsAreFair(taker, maker); }
  }

  /** In a match neither side pays more than it offers, one side is emptied, the price is the maker's to the unit, and
      the maker receives at least the floor of what it pays times its price. */
  lemma TermsAreFair(taker: LimitOrder, maker: LimitOrder)
    requires Sound(taker) && Sound(maker) && Opposite(taker, maker)
    ensures var t := MatchTerms(taker, maker);
      && t.takerPays <= taker.forSale && t.takerReceives <= maker.forSale
      && (t.takerPays == taker.forSale || t.takerReceives == maker.forSale)
      && AtMakersPrice(taker, maker, t.takerPays, t.takerReceives)
      && t.takerPays >= t.takerReceives * maker.price.quote / maker.price.base
  {
    TermsAreMakers(taker, maker);
    var b, q := maker.price.base, maker.price.quote;
    if taker.forSale <= ToReceive(maker) {
      var r := taker.forSale * b / q;
      DivIsLargest(maker.forSale * q, b, taker.forSale);
      DivMono(taker.forSale * b, maker.forSale * q, q);
      DivUnique(maker.forSale * q, q, maker.forSale, 0);
      DivIsLargest(taker.forSale * b, q, r);
      DivMono(r * q, taker.forSale * b, b);
      DivUnique(taker.forSale * b, b, taker.forSale, 0);
    }
  }

  /** The trade is at the maker's price, to the unit: a taker that the maker can satisfy sells everything for as much as
      that is worth, any other buys everything for as much as that costs, both rounded down. */
  predicate AtMakersPrice(taker: LimitOrder, maker: LimitOrder, pays: nat, receives: nat) {
    var b, q := maker.price.base, maker.price.quote;
    if taker.forSale * b <= maker.forSale * q then
      pays == taker.forSale && receives * q <= pays * b < (receives + 1) * q
    else
      receives == maker.forSale && pays * b <= receives * q < (pays + 1) * b
  }

  lemma TermsAreMakers(taker: LimitOrder, maker: LimitOrder)
    requires maker.price.base > 0 && maker.price.quote > 0
    ensures var t := MatchTerms(taker, maker); AtMakersPrice(taker, maker, t.takerPays, t.takerReceives)
  {
    var b, q := maker.price.base, maker.price.quote;
    DivIsLargest(maker.forSale * q, b, taker.forSale);
    DivIsLargest(taker.forSale * b, q, 0);
  }

  /** When the orders cross, the taker too receives at least the floor of what it pays times its own price. */
  lemma TakerGetsItsPrice(taker: LimitOrder, maker: LimitOrder)
    requires Sound(taker) && Sound(maker) && Crosses(taker, maker)
    ensures var t := MatchTerms(taker, maker);
      t.takerReceives >= t.takerPays * taker.price.quote / taker.price.base
  {
    // maker.base/maker.quote >= taker.quote/taker.base
    var t, mb, mq, tb, tq := MatchTerms(taker, maker), maker.price.base, maker.price.quote, taker.price.base,
      taker.price.quote;
    assert tq * mq <= mb * tb;
    var n := t.takerPays;
    ProportionBounds(n, tq, tb, mb, mq);
    if taker.forSale > ToReceive(maker) {
      DivIsLargest(maker.forSale * mq, mb, n);
      DivMono(n * mb, maker.forSale * mq, mq);
      DivUnique(maker.forSale * mq, mq, maker.forSale, 0);
    }
  }

  /** A worse price yields no more. */
  lemma ProportionBounds(n: nat, tq: nat, tb: nat, mb: nat, mq: nat)
    requires tb > 0 && mq > 0 && tq * mq <= mb * tb
    ensures n * tq / tb <= n * mb / mq
  {
    var x := n * tq / tb;
    DivIsLargest(n * tq, tb, x);
    MulMono(x * tb, n * tq, mq);
    MulMono(tq * mq, mb * tb, n);
    Associate(x, tb, mq);
    Associate(n, tq, mq);
    Associate(n, mb, tb);
    CancelFactor(x * mq, n * mb, tb);
    DivIsLargest(n * mb, mq, x);
  }

  /** Both sides of a trade are filled: the taker pays what the maker receives, and the other way round. */
  function Traded(l: Ledger, taker: OrderId, maker: OrderId, t: Terms, takerFee: nat, makerFee: nat,
      cull: bool): (l': Ledger)
    requires taker in l.limits && maker in l.limits && taker != maker
    requires t.takerPays <= l.limits[taker].forSale && t.takerReceives <= l.limits[maker].forSale
    requires takerFee <= t.takerReceives && makerFee <= t.takerPays
    ensures l' == l.(balances := l'.balances, fees := l'.fees, pendingFees := l'.pendingFees, limits := l'.limits)
    ensures l'.limits == AfterFill(AfterFill(l.limits, taker, t.takerPays, false), maker, t.takerReceives, cull)
  {
    var l1 := FilledLimit(l, taker, t.takerPays, t.takerReceives, takerFee, false);
    FilledLimit(l1, maker, t.takerReceives, t.takerPays, makerFee, cull)
  }

  /** A trade only moves assets between the two parties and the fees. */
  lemma TradeHolds(l: Ledger, taker: OrderId, maker: OrderId, t: Terms, takerFee: nat, makerFee: nat, cull: bool,
      x: AssetId)
    requires taker in l.limits && maker in l.limits && taker != maker && Opposite(l.limits[taker], l.limits[maker])
    requires t.takerPays <= l.limits[taker].forSale && t.takerReceives <= l.limits[maker].forSale
    requires takerFee <= t.takerReceives && makerFee <= t.takerPays
    ensures Held(Traded(l, taker, maker, t, takerFee, makerFee, cull), x) == Held(l, x)
  {
    var l1 := FilledLimit(l, taker, t.takerPays, t.takerReceives, takerFee, false);
    FillLimitHolds(l, taker, t.takerPays, t.takerReceives, takerFee, false, x);
    FillLimitHolds(l1, maker, t.takerReceives, t.takerPays, makerFee, cull, x);
  }

  // ---------- margin positions and settlement orders ----------

  /** fill_order on a call order: it pays collateral to buy back debt, which leaves the supply; a position without debt
      is closed and its remaining collateral freed. */
  function FilledCall(l: Ledger, id: OrderId, pays: nat, receives: nat): (l': Ledger)
    requires id in l.calls && pays <= l.calls[id].collateral && receives <= l.calls[id].debt
    ensures l' == l.(balances := l'.balances, calls := l'.calls, supply := l'.supply)
    ensures l'.calls ==
      if receives == l.calls[id].debt then l.calls - {id}
      else l.calls[id := l.calls[id].(debt := l.calls[id].debt - receives, collateral := l.calls[id].collateral - pays)]
  {
    var c := l.calls[id];
    var c' := c.(debt := c.debt - receives, collateral := c.collateral - pays);
    var l1 := Issue(l, c.mia, -(receives as int));
    if c'.debt == 0 then
      var l2 := Credit(l1, c.borrower, c.backing, c'.collateral);
      l2.(calls := l2.calls - {id})
    else l1.(calls := l1.calls[id := c'])
  }

  lemma FillCallHolds(l: Ledger, id: OrderId, pays: nat, receives: nat, x: AssetId)
    requires id in l.calls && pays <= l.calls[id].collateral && receives <= l.calls[id].debt
    ensures var l', c := FilledCall(l, id, pays, receives), l.calls[id];
      && Held(l', x) == Held(l, x) - (if x == c.backing then pays else 0)
      && Debt(l', x) == Debt(l, x) - (if x == c.mia then receives else 0)
      && GetInt(l'.supply, x) == GetInt(l.supply, x) - (if x == c.mia then receives else 0)
  {
    var c := l.calls[id];
    var c' := c.(debt := c.debt - receives, collateral := c.collateral - pays);
    var l1 := Issue(l, c.mia, -(receives as int));
    if c'.debt == 0 {
      CreditHolds(l1, c.borrower, c.backing, c'.collateral, x);
      DropCallHolds(Credit(l1, c.borrower, c.backing, c'.collateral), id, x);
    } else {
      PutCallHolds(l1, id, c', x);
    }
  }

  /** What settling does to the settlement orders. */
  function AfterSettle(settles: map<OrderId, SettleOrder>, id: OrderId, pays: nat): map<OrderId, SettleOrder>
    requires id in settles && pays <= settles[id].amount
  {
    if pays < settles[id].amount then settles[id := settles[id].(amount := settles[id].amount - pays)]
      else settles - {id}
  }

  /** fill_order on a settlement order. */
  function FilledSettle(l: Ledger, id: OrderId, pays: nat, backing: AssetId, receives: nat, fee: nat): (l': Ledger)
    requires id in l.settles && pays <= l.settles[id].amount && fee <= receives
    ensures l' == l.(balances := l'.balances, fees := l'.fees, settles := l'.settles)
    ensures l'.settles == AfterSettle(l.settles, id, pays)
  {
    var s := l.settles[id];
    var l1 := Receive(l, s.owner, backing, receives, fee);
    if pays < s.amount then l1.(settles := l1.settles[id := s.(amount := s.amount - pays)])
    else l1.(settles := l1.settles - {id})
  }

  lemma FillSettleHolds(l: Ledger, id: OrderId, pays: nat, backing: AssetId, receives: nat, fee: nat, x: AssetId)
    requires id in l.settles && pays <= l.settles[id].amount && fee <= receives
    ensures Held(FilledSettle(l, id, pays, backing, receives, fee), x) == Held(l, x)
      + (if x == backing then receives else 0) - (if x == l.settles[id].mia then pays else 0)
  {
    var s := l.settles[id];
    ReceiveHolds(l, s.owner, backing, receives, fee, x);
    var l1 := Receive(l, s.owner, backing, receives, fee);
    PutSettleHolds(l1, id, s.(amount := s.amount - pays), x);
    DropSettleHolds(l1, id, x);
  }

  /** cancel_order on a settlement order. */
  function CancelledSettle(l: Ledger, id: OrderId): Ledger
    requires id in l.settles
  {
    var s := l.settles[id];
    var l1 := Credit(l, s.owner, s.mia, s.amount);
    l1.(settles := l1.settles - {id})
  }

  lemma CancelSettleHolds(l: Ledger, id: OrderId, x: AssetId)
    requires id in l.settles
    ensures Held(CancelledSettle(l, id), x) == Held(l, x)
  {
    var s := l.settles[id];
    CreditHolds(l, s.owner, s.mia, s.amount, x);
    DropSettleHolds(Credit(l, s.owner, s.mia, s.amount), id, x);
  }

  /** Matching a position with a settlement order: the debt asset is destroyed, the collateral changes hands. */
  function MatchedSettle(l: Ledger, call: OrderId, settle: OrderId, amount: nat, pays: nat, fee: nat): (l': Ledger)
    requires call in l.calls && amount <= l.calls[call].debt && pays <= l.calls[call].collateral
    requires settle in l.settles && amount <= l.settles[settle].amount && fee <= pays
    ensures l' == l.(balances := l'.balances, fees := l'.fees, calls := l'.calls, supply := l'.supply,
      settles := l'.settles)
    ensures l'.calls == FilledCall(l, call, pays, amount).calls && l'.settles == AfterSettle(l.settles, settle, amount)
  {
    FilledSettle(FilledCall(l, call, pays, amount), settle, amount, l.calls[call].backing, pays, fee)
  }

  /** Supply, debt and holdings fall by the settled amount together; nothing else is gained or lost. */
  lemma MatchSettleHolds(l: Ledger, call: OrderId, settle: OrderId, amount: nat, pays: nat, fee: nat, x: AssetId)
    requires call in l.calls && amount <= l.calls[call].debt && pays <= l.calls[call].collateral
    requires settle in l.settles && amount <= l.settles[settle].amount && l.settles[settle].mia == l.calls[call].mia
    requires fee <= pays
    ensures var l', n := MatchedSettle(l, call, settle, amount, pays, fee),
      if x == l.calls[call].mia then amount else 0;
      && Held(l', x) == Held(l, x) - n
      && Debt(l', x) == Debt(l, x) - n
      && GetInt(l'.supply, x) == GetInt(l.supply, x) - n
  {
    FillCallHolds(l, call, pays, amount, x);
    var l1 := FilledCall(l, call, pays, amount);
    FillSettleHolds(l1, settle, amount, l.calls[call].backing, pays, fee, x);
  }

  /** One round of check_call_orders: the position buys debt from a limit order for `pays` of its collateral. */
  function MarginCalled(l: Ledger, call: OrderId, limit: OrderId, amount: nat, pays: nat, fee: nat,
      cull: bool): (l': Ledger)
    requires call in l.calls && amount <= l.calls[call].debt && pays <= l.calls[call].collateral
    requires limit in l.limits && amount <= l.limits[limit].forSale && fee <= pays
    ensures l'.bits == l.bits && l'.settles == l.settles && l'.calls == FilledCall(l, call, pays, amount).calls
  {
    FilledLimit(FilledCall(l, call, pays, amount), limit, amount, pays, fee, cull)
  }

  lemma MarginCallHolds(l: Ledger, call: OrderId, limit: OrderId, amount: nat, pays: nat, fee: nat, cull: bool,
      x: AssetId)
    requires call in l.calls && amount <= l.calls[call].debt && pays <= l.calls[call].collateral
    requires limit in l.limits && amount <= l.limits[limit].forSale && fee <= pays
    requires l.limits[limit].price.baseId == l.calls[call].mia && l.limits[limit].price.quoteId == l.calls[call].backing
    ensures var l', n := MarginCalled(l, call, limit, amount, pays, fee, cull),
      if x == l.calls[call].mia then amount else 0;
      && Held(l', x) == Held(l, x) - n
      && Debt(l', x) == Debt(l, x) - n
      && GetInt(l'.supply, x) == GetInt(l.supply, x) - n
  {
    FillCallHolds(l, call, pays, amount, x);
    FillLimitHolds(FilledCall(l, call, pays, amount), limit, amount, pays, fee, cull, x);
  }
}
