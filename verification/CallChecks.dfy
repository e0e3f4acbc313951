/**
 * The check for black swans and margin calls that follows every change of a market
 * (libraries/chain/db_update.cpp:213-268, db_market.cpp:427-545): one position after another buys back its debt from
 * the bid that an iterator points at, until the first position need not, the iterator has come to the end of the bids
 * that are high enough, or the asset is globally settled.
 */
module CallChecks {
  import opened Common
  import opened Arithmetic
  import opened MapSums
  import opened Prices
  import opened PriceIndices
  import opened Ledgers
  import opened Trading
  import opened OrderBooks
  import opened Backings
  import opened MarketDatabases
  import opened ForcedSettlements
  import opened GlobalSettlements
  import opened MarginCalls

  // ---------- what the check looks at ----------

  /** What a check is given besides the ledger: the lowest bid to call with, and each position's call price as debt
      per collateral, which no fill changes. */
  datatype Guide = Guide(squeeze: Price, callPrices: Index)

  /** The bids that the iterator has passed, whether any bid has been used up so far, and whether the one it points at
      has been removed.  Once one has been used up, the iterator moves on before every fill. */
  datatype Cursor = Cursor(passed: set<OrderId>, used: bool, stale: bool)

  const START := Cursor({}, false, false)

  /** The first position by call price, the best bid of all, and the one that the iterator points at: the best of those
      not below the squeeze price and not passed. */
  datatype View = View(call: Option<OrderId>, best: Option<OrderId>, bid: Option<OrderId>)

  ghost predicate Guides(l: Ledger, mia: AssetId, g: Guide) {
    && mia in l.bits && g.squeeze.baseId == mia && g.squeeze.quoteId == l.bits[mia].backing
    && CallsOf(l.calls, mia) <= g.callPrices.Keys && AllOrdered(g.callPrices)
  }

  function LowestPrice(mia: AssetId, backing: AssetId): Price {
    Price(1, mia, MAX_SHARE_SUPPLY, backing)
  }

  /** The orders that sell an asset for another at no less than a price. */
  function Bids(b: Book, floor: Price): set<OrderId> {
    set i | i in b && SamePair(b[i].price, floor) && AtLeast(b[i].price, floor)
  }

  ghost predicate IsBest(b: Book, floor: Price, passed: set<OrderId>, bid: Option<OrderId>) {
    if bid.Some? then FirstAmong(PricesOf(b), Bids(b, floor) - passed, bid.value) else Bids(b, floor) - passed == {}
  }

  ghost predicate IsFirstCall(l: Ledger, mia: AssetId, g: Guide, call: Option<OrderId>)
    requires Guides(l, mia, g)
  {
    if call.Some? then FirstAmong(g.callPrices, CallsOf(l.calls, mia), call.value) else CallsOf(l.calls, mia) == {}
  }

  ghost predicate Sees(l: Ledger, mia: AssetId, g: Guide, k: Cursor, v: View) {
    && Guides(l, mia, g) && IsFirstCall(l, mia, g, v.call)
    && IsBest(l.limits, LowestPrice(mia, l.bits[mia].backing), {}, v.best)
    && IsBest(l.limits, g.squeeze, k.passed, v.bid)
  }

  method Best(b: Book, floor: Price, passed: set<OrderId>) returns (bid: Option<OrderId>)
    requires AllSound(b)
    ensures IsBest(b, floor, passed, bid)
  {
    PricesAreOrdered(b);
    var bids := Bids(b, floor) - passed;
    if bids == {} { return None; }
    var first := First(PricesOf(b), bids);
    bid := Some(first);
  }

  method Look(db: MarketDatabase, mia: AssetId, g: Guide, k: Cursor) returns (v: View)
    requires Guides(db.Contents(), mia, g) && AllSound(db.limits)
    ensures Sees(db.Contents(), mia, g, k, v)
  {
    var best := Best(db.limits, LowestPrice(mia, db.bits[mia].backing), {});
    var bid := Best(db.limits, g.squeeze, k.passed);
    var positions := CallsOf(db.calls, mia);
    if positions == {} { return View(None, best, bid); }
    var call := First(g.callPrices, positions);
    v := View(Some(call), best, bid);
  }

  // ---------- what comes of it ----------

  /** Nothing to do, a global settlement, an exception, a call, or a look at a bid that has been removed. */
  datatype Verdict = Quiet | SettlesAt(price: Price) | Throws | Calls | Undefined

  /** The debt per collateral of a position, at which it would be settled globally. */
  function SwanPrice(c: CallOrder): Price {
    Price(c.debt, c.mia, c.collateral, c.backing)
  }

  /** The higher of the best bid and the feed. */
  function Highest(b: Book, best: Option<OrderId>, feed: Price): Price
    requires best.Some? ==> best.value in b
  {
    if best.Some? && AtLeast(b[best.value].price, feed) then b[best.value].price else feed
  }

  /** The first position owes at least as much per collateral as the best bid and the feed. */
  predicate IsSwan(c: CallOrder, highest: Price) {
    AtLeast(SwanPrice(c), highest)
  }

  ghost function SettlesOrThrows(l: Ledger, mia: AssetId, p: Price, enabled: bool): Verdict {
    if enabled && AllPriced(l.calls, mia, p) then SettlesAt(p) else Throws
  }

  /** The bid is below the feed's protection or the position's call price. */
  predicate IsProtected(callPrice: Price, o: LimitOrder, feed: Price) {
    Less(callPrice, feed) || Less(callPrice, o.price)
  }

  ghost function CallVerdict(l: Ledger, c: CallOrder, o: LimitOrder, feed: Price, enabled: bool): Verdict {
    var worth := Times(c.debt, c.mia, o.price);
    if worth.None? then Throws
    else if worth.value > c.collateral then SettlesOrThrows(l, c.mia, feed, enabled)
    else Calls
  }

  ghost function VerdictOn(l: Ledger, mia: AssetId, g: Guide, v: View, k: Cursor, enabled: bool): Verdict
    requires Sees(l, mia, g, k, v)
  {
    var b := l.bits[mia];
    if b.settlement.Some? || b.feed.None? || v.call.None? then Quiet
    else
      var c, feed := l.calls[v.call.value], b.feed.value;
      if IsSwan(c, Highest(l.limits, v.best, feed)) then SettlesOrThrows(l, mia, SwanPrice(c), enabled)
      else if b.prediction then Quiet
      else if k.stale then Undefined
      else if v.bid.None? || IsProtected(g.callPrices[v.call.value], l.limits[v.bid.value], feed) then Quiet
      else CallVerdict(l, c, l.limits[v.bid.value], feed, enabled)
  }

  /** The call prices are of the asset against its backing. */
  ghost predicate IsGuideOf(g: Guide, mia: AssetId) {
    forall i :: i in g.callPrices ==> g.callPrices[i].baseId == mia && g.callPrices[i].quoteId == g.squeeze.quoteId
  }

  // ---------- the two comparisons ----------

  /** The position's call price is not below `p`. */
  predicate IsCallable(callPrice: Price, p: Price) {
    p.base * callPrice.quote <= callPrice.base * p.quote
  }

  /** Whoever looks at a bid for a position in an open market finds it protected exactly when its call price is below
      the feed or below the bid. */
  lemma ProtectedExactly(l: Ledger, mia: AssetId, g: Guide, k: Cursor, v: View)
    requires Backed(l) && Sees(l, mia, g, k, v) && IsGuideOf(g, mia)
    requires l.bits[mia].feed.Some? && v.call.Some? && v.bid.Some?
    ensures var callPrice, feed, o := g.callPrices[v.call.value], l.bits[mia].feed.value, l.limits[v.bid.value];
      IsProtected(callPrice, o, feed) <==> !(IsCallable(callPrice, feed) && IsCallable(callPrice, o.price))
  {
    assert BitFits(mia, l.bits[mia]);
  }

  // ---------- black swans ----------

  /** Somebody offers at least some debt per collateral that the position does not exceed. */
  predicate IsBelow(c: CallOrder, p: Price) {
    c.debt * p.quote < p.base * c.collateral
  }

  /** A bid that is looked at: it sells the asset for its backing, at no less than one for the maximum supply. */
  predicate IsBid(o: LimitOrder, mia: AssetId, backing: AssetId) {
    o.price.baseId == mia && o.price.quoteId == backing && o.price.quote <= MAX_SHARE_SUPPLY * o.price.base
  }

  /** The first position is no black swan: it owes less per collateral than the feed or than some bid. */
  ghost predicate IsAfloat(l: Ledger, mia: AssetId, c: CallOrder)
    requires mia in l.bits && l.bits[mia].feed.Some?
  {
    || IsBelow(c, l.bits[mia].feed.value)
    || exists i :: i in l.limits && IsBid(l.limits[i], mia, l.bits[mia].backing) && IsBelow(c, l.limits[i].price)
  }

  lemma SwanExactly(l: Ledger, mia: AssetId, g: Guide, k: Cursor, v: View)
    requires Backed(l) && AllSound(l.limits) && Sees(l, mia, g, k, v) && l.bits[mia].feed.Some? && v.call.Some?
    ensures var c := l.calls[v.call.value];
      IsSwan(c, Highest(l.limits, v.best, l.bits[mia].feed.value)) <==> !IsAfloat(l, mia, c)
  {
    var c, feed := l.calls[v.call.value], l.bits[mia].feed.value;
    assert BitFits(mia, l.bits[mia]) && CallFits(l.bits, c);
    if v.best.Some? { HighestTells(c, l.limits[v.best.value].price, feed); }
    forall i | i in l.limits && IsBid(l.limits[i], mia, l.bits[mia].backing) && IsBelow(c, l.limits[i].price)
      ensures v.best.Some? && IsBelow(c, l.limits[v.best.value].price)
    {
      BestTells(l, mia, c, v.best, i);
    }
  }

  lemma HighestTells(c: CallOrder, best: Price, feed: Price)
    requires best.base > 0 && feed.base > 0 && c.debt > 0
    requires SamePair(best, feed) && best.baseId == c.mia && best.quoteId == c.backing
    ensures AtLeast(SwanPrice(c), if AtLeast(best, feed) then best else feed)
      <==> !IsBelow(c, feed) && !IsBelow(c, best)
  {
    LessIsTransitive(SwanPrice(c), best, feed);
    LessIsTransitive(SwanPrice(c), feed, best);
  }

  /** A position that is below some bid is below the best. */
  lemma BestTells(l: Ledger, mia: AssetId, c: CallOrder, best: Option<OrderId>, i: OrderId)
    requires AllSound(l.limits) && mia in l.bits && IsBest(l.limits, LowestPrice(mia, l.bits[mia].backing), {}, best)
    requires i in l.limits && IsBid(l.limits[i], mia, l.bits[mia].backing) && IsBelow(c, l.limits[i].price)
    requires c.mia == mia && c.backing == l.bits[mia].backing && c.debt > 0
    ensures best.Some? && IsBelow(c, l.limits[best.value].price)
  {
    var bids := Bids(l.limits, LowestPrice(mia, l.bits[mia].backing));
    assert i in bids - {};
    var p, q := l.limits[i].price, l.limits[best.value].price;
    if best.value != i { assert Before(PricesOf(l.limits)[best.value], best.value, p, i); }
    LessIsTransitive(SwanPrice(c), q, p);
  }

  // ---------- what a look shows ----------

  /** All the debt can be bought at the bid's price. */
  predicate IsAffordable(c: CallOrder, o: LimitOrder) {
    && c.debt * o.price.quote < (c.collateral + 1) * o.price.base
    && c.debt * o.price.quote < (MAX_SHARE_SUPPLY + 1) * o.price.base
  }

  /** The first position's call price is below neither the feed nor the bid. */
  ghost predicate IsExposed(l: Ledger, mia: AssetId, g: Guide, v: View)
    requires mia in l.bits && l.bits[mia].feed.Some? && v.call.Some? && v.call.value in g.callPrices
    requires v.bid.Some? ==> v.bid.value in l.limits
  {
    && v.bid.Some? && IsCallable(g.callPrices[v.call.value], l.bits[mia].feed.value)
    && IsCallable(g.callPrices[v.call.value], l.limits[v.bid.value].price)
  }

  /** In an open market, with a position and an iterator that does not point at a removed bid: nothing is done exactly
      when the first position is no black swan and not exposed to the bid; it is called exactly when it is exposed and
      the bid affordable; and a global settlement is at what it owes per collateral, or at the feed if it is no swan. */
  ghost predicate IsDecided(l: Ledger, mia: AssetId, g: Guide, v: View, enabled: bool, verdict: Verdict)
    requires mia in l.bits && IsOpen(l.bits[mia]) && v.call.Some? && v.call.value in l.calls
    requires v.call.value in g.callPrices && (v.bid.Some? ==> v.bid.value in l.limits)
  {
    var c := l.calls[v.call.value];
    && (verdict == Quiet <==> IsAfloat(l, mia, c) && !IsExposed(l, mia, g, v))
    && (verdict == Calls <==>
          IsAfloat(l, mia, c) && IsExposed(l, mia, g, v) && IsAffordable(c, l.limits[v.bid.value]))
    && (verdict.SettlesAt? ==>
          enabled && verdict.price ==
            if IsAfloat(l, mia, c) then l.bits[mia].feed.value else Price(c.debt, mia, c.collateral, c.backing))
  }

  lemma LookDecides(l: Ledger, mia: AssetId, g: Guide, k: Cursor, v: View, enabled: bool)
    requires Backed(l) && AllSound(l.limits) && Sees(l, mia, g, k, v) && IsGuideOf(g, mia)
    requires IsOpen(l.bits[mia]) && v.call.Some? && !k.stale
    ensures IsDecided(l, mia, g, v, enabled, VerdictOn(l, mia, g, v, k, enabled))
  {
    var c := l.calls[v.call.value];
    SwanExactly(l, mia, g, k, v);
    if v.bid.Some? {
      ProtectedExactly(l, mia, g, k, v);
      AffordableExactly(l, c, l.limits[v.bid.value]);
    }
  }

  lemma AffordableExactly(l: Ledger, c: CallOrder, o: LimitOrder)
    requires Sound(o) && c.mia == o.price.baseId
    ensures var worth := Times(c.debt, c.mia, o.price);
      worth.Some? && worth.value <= c.collateral <==> IsAffordable(c, o)
  {
    DivIsLargest(c.debt * o.price.quote, o.price.base, c.collateral + 1);
    DivIsLargest(c.debt * o.price.quote, o.price.base, MAX_SHARE_SUPPLY + 1);
  }

  // ---------- rounds ----------

  datatype Stand = Stand(ledger: Ledger, cursor: Cursor)

  ghost predicate IsCallRoundAt(
      rules: map<AssetId, FeeRule>, p: Stand, q: Stand, mia: AssetId, g: Guide, enabled: bool, v: View)
  {
    && FairRules(rules) && Backed(p.ledger) && AllSound(p.ledger.limits) && Sees(p.ledger, mia, g, p.cursor, v)
    && VerdictOn(p.ledger, mia, g, v, p.cursor, enabled) == Calls
    && (CallIsPossible(rules, p.ledger, mia, g, v, p.cursor, enabled);
        q == Stand(AfterCall(rules, p.ledger, v.call.value, v.bid.value),
                   Advanced(p.cursor, v.bid.value, p.ledger.calls[v.call.value], p.ledger.limits[v.bid.value])))
  }

  ghost predicate IsCallOf(rules: map<AssetId, FeeRule>, l: Ledger, call: OrderId, limit: OrderId) {
    && FairRules(rules) && CanCall(l, call, limit)
    && CallPays(l.calls[call], l.limits[limit]) <= l.calls[call].collateral
  }

  ghost function AfterCall(rules: map<AssetId, FeeRule>, l: Ledger, call: OrderId, limit: OrderId): Ledger
    requires IsCallOf(rules, l, call, limit)
  {
    var c, o := l.calls[call], l.limits[limit];
    FeeWithinAmount(rules, c.backing, CallPays(c, o));
    MarginCalled(l, call, limit, CallAmount(c, o), CallPays(c, o), MarketFee(rules, c.backing, CallPays(c, o)),
                 LeavesDust(o, CallAmount(c, o)))
  }

  /** Where a call leaves the iterator. */
  function Advanced(k: Cursor, limit: OrderId, c: CallOrder, o: LimitOrder): Cursor {
    var used := k.used || c.debt >= o.forSale;
    Cursor(if used then k.passed + {limit} else k.passed, used, !used && LeavesDust(o, CallAmount(c, o)))
  }

  lemma CallIsPossible(
      rules: map<AssetId, FeeRule>, l: Ledger, mia: AssetId, g: Guide, v: View, k: Cursor, enabled: bool)
    requires FairRules(rules) && Backed(l) && AllSound(l.limits) && Sees(l, mia, g, k, v)
    requires VerdictOn(l, mia, g, v, k, enabled) == Calls
    ensures v.call.Some? && v.bid.Some? && IsCallOf(rules, l, v.call.value, v.bid.value)
  {
    var c, o := l.calls[v.call.value], l.limits[v.bid.value];
    assert CallFits(l.bits, c) && Sound(o);
    CallIsAffordable(c, o);
  }

  /** A check: rounds of calls, each with the first position and the bid that the iterator points at. */
  ghost predicate IsCheck(rules: map<AssetId, FeeRule>, path: seq<Stand>, mia: AssetId, g: Guide, enabled: bool) {
    |path| > 0 && forall k: nat :: k < |path| - 1 ==> IsCallRound(rules, path[k], path[k + 1], mia, g, enabled)
  }

  ghost predicate IsCallRound(
      rules: map<AssetId, FeeRule>, p: Stand, q: Stand, mia: AssetId, g: Guide, enabled: bool)
  {
    exists v :: IsCallRoundAt(rules, p, q, mia, g, enabled, v)
  }

  lemma OneMoreCall(rules: map<AssetId, FeeRule>, path: seq<Stand>, q: Stand, mia: AssetId, g: Guide, enabled: bool)
    requires IsCheck(rules, path, mia, g, enabled) && IsCallRound(rules, path[|path| - 1], q, mia, g, enabled)
    ensures IsCheck(rules, path + [q], mia, g, enabled)
  {
    forall k: nat | k < |path| ensures IsCallRound(rules, (path + [q])[k], (path + [q])[k + 1], mia, g, enabled) {
      if k < |path| - 1 { assert IsCallRound(rules, path[k], path[k + 1], mia, g, enabled); }
    }
  }

  // ---------- what a check keeps ----------

  ghost predicate OutsideIsKept(l0: Ledger, l: Ledger) {
    forall a: AssetId :: OutsideStays(l0, l, a)
  }

  ghost predicate OutsideStays(l0: Ledger, l: Ledger, a: AssetId) {
    Outside(l, a) == Outside(l0, a)
  }

  /** Only the first position may have lost its collateral. */
  ghost predicate OthersHaveCollateral(l: Ledger, mia: AssetId, g: Guide)
    requires Guides(l, mia, g)
  {
    forall i :: i in CallsOf(l.calls, mia) ==>
      l.calls[i].debt <= MAX_SHARE_SUPPLY && (l.calls[i].collateral > 0 || IsFirstCall(l, mia, g, Some(i)))
  }

  ghost predicate Checking(l0: Ledger, l: Ledger, mia: AssetId, g: Guide) {
    && Backed(l) && AllSound(l.limits) && Guides(l, mia, g) && OutsideIsKept(l0, l) && l.bits == l0.bits
    && (l == l0 || l.bits[mia].feed.Some?)
    && (Collateralized(l0.calls, mia) ==> OthersHaveCollateral(l, mia, g))
  }

  /** Without collateral the first position is a black swan, whatever the bids and the feed. */
  lemma EmptyIsSwan(c: CallOrder, highest: Price)
    requires c.debt > 0 && c.collateral == 0 && SamePair(highest, SwanPrice(c))
    ensures IsSwan(c, highest)
  {
  }

  /** The first position tells whether all have collateral. */
  lemma FirstTells(l: Ledger, mia: AssetId, g: Guide, k: Cursor, v: View)
    requires Sees(l, mia, g, k, v) && OthersHaveCollateral(l, mia, g)
    ensures Collateralized(l.calls, mia) <==> (v.call.Some? ==> l.calls[v.call.value].collateral > 0)
  {
    forall i | i in l.calls && l.calls[i].mia == mia
      ensures l.calls[i].debt <= MAX_SHARE_SUPPLY && (l.calls[i].collateral > 0 || v.call == Some(i))
    {
      assert i in CallsOf(l.calls, mia);
      if IsFirstCall(l, mia, g, Some(i)) {
        FirstIsUnique(g.callPrices, CallsOf(l.calls, mia), i, v.call.value);
      }
    }
  }

  /** So a check that goes on to a call, or comes to rest, has found collateral in every position. */
  lemma NoSwanHasCollateral(l: Ledger, mia: AssetId, g: Guide, v: View, k: Cursor, enabled: bool)
    requires Backed(l) && Sees(l, mia, g, k, v) && OthersHaveCollateral(l, mia, g)
    requires l.bits[mia].settlement.None? && l.bits[mia].feed.Some?
    requires VerdictOn(l, mia, g, v, k, enabled) in {Quiet, Calls}
    ensures Collateralized(l.calls, mia)
  {
    FirstTells(l, mia, g, k, v);
    if v.call.Some? {
      var c, b := l.calls[v.call.value], l.bits[mia];
      assert CallFits(l.bits, c) && BitFits(mia, b);
      if c.collateral == 0 { EmptyIsSwan(c, Highest(l.limits, v.best, b.feed.value)); }
    }
  }

  lemma AfterFillIsSound(b: Book, id: OrderId, pays: nat, cull: bool)
    requires AllSound(b) && id in b && pays <= b[id].forSale
    ensures AllSound(AfterFill(b, id, pays, cull))
  {
    TimesGrows(b[id].forSale - pays, b[id].forSale, b[id].price.quote, b[id].price.base);
  }

  /** The first position stays the first when it is called, unless it is gone. */
  lemma FirstStays(l: Ledger, l': Ledger, mia: AssetId, g: Guide, call: OrderId)
    requires Guides(l, mia, g) && l'.bits == l.bits && CallsOf(l'.calls, mia) <= CallsOf(l.calls, mia)
    requires IsFirstCall(l, mia, g, Some(call)) && call in CallsOf(l'.calls, mia)
    ensures IsFirstCall(l', mia, g, Some(call))
  {
  }

  lemma CallKeepsOthers(rules: map<AssetId, FeeRule>, l: Ledger, mia: AssetId, g: Guide, call: OrderId, limit: OrderId)
    requires IsCallOf(rules, l, call, limit) && Guides(l, mia, g) && IsFirstCall(l, mia, g, Some(call))
    requires Collateralized(l.calls, mia)
    ensures var l' := AfterCall(rules, l, call, limit);
      CallsOf(l'.calls, mia) <= CallsOf(l.calls, mia) && Guides(l', mia, g) && OthersHaveCollateral(l', mia, g)
  {
    var l' := AfterCall(rules, l, call, limit);
    assert CallsOf(l'.calls, mia) <= CallsOf(l.calls, mia);
    if call in CallsOf(l'.calls, mia) { FirstStays(l, l', mia, g, call); }
  }

  /** Fewer positions, or as many and fewer orders. */
  ghost predicate IsShorter(l': Ledger, l: Ledger) {
    |l'.calls| < |l.calls| || (|l'.calls| == |l.calls| && |l'.limits| < |l.limits|)
  }

  /** A call moves supply, debt and holdings together, leaves the orders sound, and takes a position or an order
      away. */
  lemma CallMoves(rules: map<AssetId, FeeRule>, l: Ledger, call: OrderId, limit: OrderId)
    requires IsCallOf(rules, l, call, limit) && AllSound(l.limits)
    ensures var l' := AfterCall(rules, l, call, limit);
      && Backed(l') && OutsideIsKept(l, l') && l'.bits == l.bits && AllSound(l'.limits)
      && IsShorter(l', l)
  {
    var c, o := l.calls[call], l.limits[limit];
    FeeWithinAmount(rules, c.backing, CallPays(c, o));
    var fee := MarketFee(rules, c.backing, CallPays(c, o));
    CallMovesHoldings(l, call, limit, CallAmount(c, o), CallPays(c, o), fee, LeavesDust(o, CallAmount(c, o)));
    CallMovesBooks(l, call, limit, CallAmount(c, o), CallPays(c, o), fee, LeavesDust(o, CallAmount(c, o)));
  }

  lemma CallMovesHoldings(
      l: Ledger, call: OrderId, limit: OrderId, amount: nat, pays: nat, fee: nat, cull: bool)
    requires CanCall(l, call, limit) && amount <= l.calls[call].debt && pays <= l.calls[call].collateral && fee <= pays
    requires amount <= l.limits[limit].forSale
    ensures var l' := MarginCalled(l, call, limit, amount, pays, fee, cull); Backed(l') && OutsideIsKept(l, l')
  {
    var l' := MarginCalled(l, call, limit, amount, pays, fee, cull);
    CallKeepsBacked(l, call, limit, amount, pays, fee, cull);
    CallMovesTogether(l, call, limit, amount, pays, fee, cull);
    forall a: AssetId ensures OutsideStays(l, l', a) { assert Moved(l, l', a, l.calls[call].mia); }
  }

  lemma CallMovesBooks(l: Ledger, call: OrderId, limit: OrderId, amount: nat, pays: nat, fee: nat, cull: bool)
    requires call in l.calls && limit in l.limits && AllSound(l.limits) && fee <= pays <= l.calls[call].collateral
    requires amount == Min(l.calls[call].debt, l.limits[limit].forSale)
    ensures var l' := MarginCalled(l, call, limit, amount, pays, fee, cull);
      && AllSound(l'.limits)
      && IsShorter(l', l)
  {
    var l1 := FilledCall(l, call, pays, amount);
    var l' := FilledLimit(l1, limit, amount, pays, fee, cull);
    AfterFillIsSound(l.limits, limit, amount, cull);
    assert l'.limits == AfterFill(l.limits, limit, amount, cull) && l'.calls == l1.calls;
    CallShortens(l, l', call, limit, amount);
  }

  lemma CallShortens(l: Ledger, l': Ledger, call: OrderId, limit: OrderId, amount: nat)
    requires call in l.calls && limit in l.limits && amount == Min(l.calls[call].debt, l.limits[limit].forSale)
    requires l'.calls.Keys == if amount == l.calls[call].debt then l.calls.Keys - {call} else l.calls.Keys
    requires l'.limits.Keys <= l.limits.Keys && (amount == l.limits[limit].forSale ==> limit !in l'.limits)
    ensures IsShorter(l', l)
  {
    assert |l'.calls| == |l'.calls.Keys| && |l.calls| == |l.calls.Keys|;
    if amount != l.calls[call].debt { Fewer(l.limits, l'.limits, limit); }
  }

  lemma OutsideIsKeptOn(l0: Ledger, l1: Ledger, l2: Ledger)
    requires OutsideIsKept(l0, l1) && OutsideIsKept(l1, l2)
    ensures OutsideIsKept(l0, l2)
  {
    forall a: AssetId ensures OutsideStays(l0, l2, a) { assert OutsideStays(l0, l1, a) && OutsideStays(l1, l2, a); }
  }

  lemma RoundKeepsChecking(
      rules: map<AssetId, FeeRule>, l0: Ledger, l: Ledger, mia: AssetId, g: Guide, v: View, k: Cursor, enabled: bool)
    requires FairRules(rules) && Checking(l0, l, mia, g) && Sees(l, mia, g, k, v)
    requires VerdictOn(l, mia, g, v, k, enabled) == Calls
    ensures v.call.Some? && v.bid.Some? && IsCallOf(rules, l, v.call.value, v.bid.value)
    ensures var l' := AfterCall(rules, l, v.call.value, v.bid.value); Checking(l0, l', mia, g) && IsShorter(l', l)
  {
    CallIsPossible(rules, l, mia, g, v, k, enabled);
    var call, bid := v.call.value, v.bid.value;
    CallMoves(rules, l, call, bid);
    OutsideIsKeptOn(l0, l, AfterCall(rules, l, call, bid));
    CallKeepsGuide(rules, l, mia, g, call, bid);
    if Collateralized(l0.calls, mia) {
      NoSwanHasCollateral(l, mia, g, v, k, enabled);
      CallKeepsOthers(rules, l, mia, g, call, bid);
    }
  }

  lemma CallKeepsGuide(rules: map<AssetId, FeeRule>, l: Ledger, mia: AssetId, g: Guide, call: OrderId, limit: OrderId)
    requires IsCallOf(rules, l, call, limit) && Guides(l, mia, g)
    ensures Guides(AfterCall(rules, l, call, limit), mia, g)
  {
    var l' := AfterCall(rules, l, call, limit);
    assert CallsOf(l'.calls, mia) <= CallsOf(l.calls, mia);
  }

  // ---------- the loop ----------

  /** What a look leads to: a verdict, and what it does to the ledger. */
  ghost predicate LeadsTo(
      rules: map<AssetId, FeeRule>, l: Ledger, l': Ledger, mia: AssetId, g: Guide, v: View, k: Cursor, enabled: bool,
      verdict: Verdict, k': Cursor)
  {
    && FairRules(rules) && Backed(l) && AllSound(l.limits) && Sees(l, mia, g, k, v)
    && verdict == VerdictOn(l, mia, g, v, k, enabled)
    && match verdict
       case Quiet => l' == l
       case SettlesAt(p) =>
         IsGlobalSettlement(l, l', mia, p) && Backed(l') && forall x: AssetId :: Conserved(l, l', x)
       case Calls =>
         CallIsPossible(rules, l, mia, g, v, k, enabled);
         && l' == AfterCall(rules, l, v.call.value, v.bid.value)
         && k' == Advanced(k, v.bid.value, l.calls[v.call.value], l.limits[v.bid.value])
       case Throws => true
       case Undefined => true
  }

  /** check_for_blackswan, and then one round of calls. */
  method CheckRound(db: MarketDatabase, mia: AssetId, g: Guide, k: Cursor, enabled: bool)
      returns (verdict: Verdict, k': Cursor, v: View)
    requires FairRules(db.rules) && Backed(db.Contents()) && AllSound(db.limits) && Guides(db.Contents(), mia, g)
    modifies db`balances, db`fees, db`pendingFees, db`limits, db`calls, db`supply, db`bits
    ensures LeadsTo(db.rules, old(db.Contents()), db.Contents(), mia, g, v, k, enabled, verdict, k')
    ensures IsGuideOf(g, mia) && IsOpen(old(db.bits)[mia]) && v.call.Some? && !k.stale ==>
      IsDecided(old(db.Contents()), mia, g, v, enabled, verdict)
  {
    v := Look(db, mia, g, k);
    if IsGuideOf(g, mia) && IsOpen(db.bits[mia]) && v.call.Some? && !k.stale {
      LookDecides(db.Contents(), mia, g, k, v, enabled);
    }
    verdict, k' := ActOnLook(db, mia, g, k, v, enabled);
  }

  method ActOnLook(db: MarketDatabase, mia: AssetId, g: Guide, k: Cursor, v: View, enabled: bool)
      returns (verdict: Verdict, k': Cursor)
    requires FairRules(db.rules) && Backed(db.Contents()) && AllSound(db.limits) && Sees(db.Contents(), mia, g, k, v)
    modifies db`balances, db`fees, db`pendingFees, db`limits, db`calls, db`supply, db`bits
    ensures LeadsTo(db.rules, old(db.Contents()), db.Contents(), mia, g, v, k, enabled, verdict, k')
  {
    k' := k;
    var b := db.bits[mia];
    if b.settlement.Some? || b.feed.None? || v.call.None? { return Quiet, k; }
    var c := db.calls[v.call.value];
    if IsSwan(c, Highest(db.limits, v.best, b.feed.value)) {
      verdict := SettleAtSwan(db, mia, v.call.value, enabled);
      return;
    }
    if b.prediction { return Quiet, k; }
    if k.stale { return Undefined, k; }
    if v.bid.None? || IsProtected(g.callPrices[v.call.value], db.limits[v.bid.value], b.feed.value) {
      return Quiet, k;
    }
    verdict, k' := CallOnce(db, mia, g, k, v, enabled);
  }

  /** Settles the asset at what its first position owes per collateral. */
  method SettleAtSwan(db: MarketDatabase, mia: AssetId, call: OrderId, enabled: bool) returns (verdict: Verdict)
    requires Backed(db.Contents()) && call in db.calls && db.calls[call].mia == mia && db.bits[mia].feed.Some?
    modifies db`balances, db`calls, db`supply, db`bits
    ensures verdict == SettlesOrThrows(old(db.Contents()), mia, SwanPrice(old(db.calls)[call]), enabled)
    ensures verdict.SettlesAt? ==>
      && IsGlobalSettlement(old(db.Contents()), db.Contents(), mia, verdict.price)
      && Backed(db.Contents()) && forall x: AssetId :: Conserved(old(db.Contents()), db.Contents(), x)
  {
    if !enabled { return Throws; }
    SomebodyOwes(db.Contents(), call);
    CallOwes(db.Contents(), call);
    var p := SwanPrice(db.calls[call]);
    var settled := GloballySettle(db, mia, p);
    verdict := if settled then SettlesAt(p) else Throws;
  }

  method CallOnce(db: MarketDatabase, mia: AssetId, g: Guide, k: Cursor, v: View, enabled: bool)
      returns (verdict: Verdict, k': Cursor)
    requires FairRules(db.rules) && Backed(db.Contents()) && AllSound(db.limits) && Sees(db.Contents(), mia, g, k, v)
    requires v.call.Some? && v.bid.Some? && !db.bits[mia].prediction && db.bits[mia].feed.Some?
    requires VerdictOn(db.Contents(), mia, g, v, k, enabled)
      == CallVerdict(db.Contents(), db.calls[v.call.value], db.limits[v.bid.value], db.bits[mia].feed.value, enabled)
    modifies db`balances, db`fees, db`pendingFees, db`limits, db`calls, db`supply, db`bits
    ensures LeadsTo(db.rules, old(db.Contents()), db.Contents(), mia, g, v, k, enabled, verdict, k')
  {
    var c, o := db.calls[v.call.value], db.limits[v.bid.value];
    ghost var l := db.Contents();
    assert CallFits(l.bits, c) && Sound(o);
    var feed := db.bits[mia].feed.value;
    k' := Advanced(k, v.bid.value, c, o);
    var r := MarginCall(db, v.call.value, v.bid.value, enabled);
    verdict := match r case Called => Calls case Swan => SettlesAt(feed) case Thrown => Throws;
  }

  ghost predicate EndsWell(l0: Ledger, l: Ledger, mia: AssetId) {
    && Backed(l) && OutsideIsKept(l0, l) && (Collateralized(l0.calls, mia) ==> Collateralized(l.calls, mia))
  }

  lemma CheckEnds(
      rules: map<AssetId, FeeRule>, l0: Ledger, l: Ledger, l': Ledger, mia: AssetId, g: Guide, v: View, k: Cursor,
      enabled: bool, end: Verdict, k': Cursor)
    requires Checking(l0, l, mia, g) && LeadsTo(rules, l, l', mia, g, v, k, enabled, end, k')
    requires end == Quiet || end.SettlesAt?
    ensures EndsWell(l0, l', mia)
  {
    if end == Quiet {
      if l.bits[mia].settlement.Some? {
        forall i | i in l.calls ensures l.calls[i].mia != mia { assert CallFits(l.bits, l.calls[i]); }
      } else if l.bits[mia].feed.Some? && Collateralized(l0.calls, mia) {
        NoSwanHasCollateral(l, mia, g, v, k, enabled);
      }
    } else {
      forall a: AssetId ensures OutsideStays(l0, l', a) { assert OutsideStays(l0, l, a) && Conserved(l, l', a); }
    }
  }

  /** The rounds so far, with more to come. */
  ghost predicate Underway(
      rules: map<AssetId, FeeRule>, l0: Ledger, path: seq<Stand>, now: Stand, mia: AssetId, g: Guide, enabled: bool)
  {
    && IsCheck(rules, path, mia, g, enabled) && path[0] == Stand(l0, START) && path[|path| - 1] == now
    && Checking(l0, now.ledger, mia, g)
  }

  /** All rounds, and what the last look has led to. */
  ghost predicate Ended(
      rules: map<AssetId, FeeRule>, l0: Ledger, path: seq<Stand>, l: Ledger, mia: AssetId, g: Guide, last: View,
      enabled: bool, end: Verdict)
  {
    && IsCheck(rules, path, mia, g, enabled) && path[0] == Stand(l0, START) && end != Calls
    && var p := path[|path| - 1];
    && LeadsTo(rules, p.ledger, l, mia, g, last, p.cursor, enabled, end, p.cursor) && Checking(l0, p.ledger, mia, g)
    && (end == Quiet || end.SettlesAt? ==> EndsWell(l0, l, mia))
  }

  lemma RoundGoesOn(
      rules: map<AssetId, FeeRule>, l0: Ledger, path: seq<Stand>, p: Stand, q: Stand, mia: AssetId, g: Guide, v: View,
      enabled: bool)
    requires Underway(rules, l0, path, p, mia, g, enabled)
    requires LeadsTo(rules, p.ledger, q.ledger, mia, g, v, p.cursor, enabled, Calls, q.cursor)
    ensures Underway(rules, l0, path + [q], q, mia, g, enabled) && IsShorter(q.ledger, p.ledger)
  {
    assert IsCallRoundAt(rules, p, q, mia, g, enabled, v);
    OneMoreCall(rules, path, q, mia, g, enabled);
    RoundKeepsChecking(rules, l0, p.ledger, mia, g, v, p.cursor, enabled);
  }

  lemma RoundEndsCheck(
      rules: map<AssetId, FeeRule>, l0: Ledger, path: seq<Stand>, p: Stand, l: Ledger, mia: AssetId, g: Guide, v: View,
      enabled: bool, end: Verdict, k: Cursor)
    requires Underway(rules, l0, path, p, mia, g, enabled) && end != Calls
    requires LeadsTo(rules, p.ledger, l, mia, g, v, p.cursor, enabled, end, k)
    ensures Ended(rules, l0, path, l, mia, g, v, enabled, end)
  {
    if end == Quiet || end.SettlesAt? { CheckEnds(rules, l0, p.ledger, l, mia, g, v, p.cursor, enabled, end, k); }
  }

  /** check_call_orders: a run of calls that ends in what the last look shows. Coming to rest or in a global settlement
      it leaves the asset backed and, if they were so before, all its positions with collateral. */
  method CheckCallOrders(db: MarketDatabase, mia: AssetId, g: Guide, enabled: bool)
      returns (end: Verdict, ghost path: seq<Stand>, ghost last: View)
    requires FairRules(db.rules) && Backed(db.Contents()) && AllSound(db.limits) && Guides(db.Contents(), mia, g)
    modifies db`balances, db`fees, db`pendingFees, db`limits, db`calls, db`supply, db`bits
    ensures Ended(db.rules, old(db.Contents()), path, db.Contents(), mia, g, last, enabled, end)
  {
    ghost var l0 := db.Contents();
    var k := START;
    end, path, last := Calls, [Stand(l0, START)], View(None, None, None);
    assert Checking(l0, l0, mia, g) by { CheckStarts(l0, mia, g); }
    while end == Calls
      invariant end == Calls ==> Underway(db.rules, l0, path, Stand(db.Contents(), k), mia, g, enabled)
      invariant end != Calls ==> Ended(db.rules, l0, path, db.Contents(), mia, g, last, enabled, end)
      decreases end == Calls, |db.calls|, |db.limits|
    {
      ghost var p := Stand(db.Contents(), k);
      var v;
      end, k, v := CheckRound(db, mia, g, k, enabled);
      last := v;
      if end == Calls {
        RoundGoesOn(db.rules, l0, path, p, Stand(db.Contents(), k), mia, g, v, enabled);
        path := path + [Stand(db.Contents(), k)];
      } else {
        RoundEndsCheck(db.rules, l0, path, p, db.Contents(), mia, g, v, enabled, end, k);
      }
    }
  }

  lemma CheckStarts(l: Ledger, mia: AssetId, g: Guide)
    requires Backed(l) && AllSound(l.limits) && Guides(l, mia, g)
    ensures Checking(l, l, mia, g)
  {
  }

  // ---------- a settlement at a price of nothing ----------

  /** Each position's collateral, if it goes back to the account and asset of a balance. */
  ghost function CollateralTo(a: AssetId, k: BalanceKey): (OrderId, CallOrder) -> int {
    (i: OrderId, c: CallOrder) => if c.mia == a && k == BalanceKey(c.borrower, c.backing) then c.collateral else 0
  }

  /** The fund is empty and every borrower has got all the collateral back. */
  ghost predicate IsForNothing(l: Ledger, l': Ledger, a: AssetId) {
    && a in l'.bits && l'.bits[a].fund == 0 && (forall i :: i in l'.calls ==> l'.calls[i].mia != a)
    && l'.bits[a].settlement.Some? && l'.bits[a].settlement.value.quote == 0
    && forall k: BalanceKey :: AllReturned(l, l', a, k)
  }

  ghost predicate AllReturned(l: Ledger, l': Ledger, a: AssetId, k: BalanceKey) {
    Get(l'.balances, k) == Get(l.balances, k) + Sum(l.calls, CollateralTo(a, k))
  }

  lemma {:induction false} SumsAgree(calls: Calls, w: (OrderId, CallOrder) -> int, w': (OrderId, CallOrder) -> int)
    requires forall i :: i in calls ==> w(i, calls[i]) == w'(i, calls[i])
    ensures Sum(calls, w) == Sum(calls, w')
    decreases |calls|
  {
    if calls != map[] {
      var i :| i in calls;
      SumRemove(calls, i, w);
      SumRemove(calls, i, w');
      SumsAgree(calls - {i}, w, w');
    }
  }

  lemma NothingIsGathered(l: Ledger, l': Ledger, a: AssetId, p: Price)
    requires IsGlobalSettlement(l, l', a, p) && p.quote == 0
    ensures IsForNothing(l, l', a)
  {
    forall c: CallOrder ensures Owed(c, p) == 0 { DivUnique(c.debt * p.quote, p.base, 0, 0); }
    NothingLeft(l.calls, PaysIn(a, p));
    forall k: BalanceKey ensures AllReturned(l, l', a, k) {
      assert Freed(l, l', a, p, k);
      SumsAgree(l.calls, FreedTo(a, p, k), CollateralTo(a, k));
    }
  }

  /** The price of nothing is a proper one for every position. */
  lemma NothingIsPriced(l: Ledger, mia: AssetId, p: Price)
    requires Backed(l) && mia in l.bits && p.base > 0 && p.baseId == mia && p.quote == 0
    requires p.quoteId == l.bits[mia].backing
    ensures AllPriced(l.calls, mia, p)
  {
    forall i | i in l.calls && l.calls[i].mia == mia ensures Priced(l.calls, i, p) {
      assert CallFits(l.bits, l.calls[i]);
      DivUnique(l.calls[i].debt * p.quote, p.base, 0, 0);
    }
  }

  /** Once the first position has no collateral, the next look settles the asset for nothing, or throws where that is
      not allowed; and it settles for nothing only then. */
  lemma EmptySettlesForNothing(l: Ledger, mia: AssetId, g: Guide, v: View, k: Cursor, enabled: bool)
    requires Backed(l) && Sees(l, mia, g, k, v) && v.call.Some? && l.bits[mia].feed.Some?
    ensures var verdict, c := VerdictOn(l, mia, g, v, k, enabled), l.calls[v.call.value];
      && (c.collateral == 0 ==> verdict == if enabled then SettlesAt(Price(c.debt, mia, 0, c.backing)) else Throws)
      && (verdict.SettlesAt? && verdict.price.quote == 0 ==> c.collateral == 0)
  {
    var c, b := l.calls[v.call.value], l.bits[mia];
    assert CallFits(l.bits, c) && BitFits(mia, b);
    if c.collateral == 0 {
      EmptyIsSwan(c, Highest(l.limits, v.best, b.feed.value));
      NothingIsPriced(l, mia, SwanPrice(c));
    }
  }

  /** A whole check of positions that all had collateral ends so exactly when a call, its last, has emptied one. */
  lemma CheckEndsForNothing(
      rules: map<AssetId, FeeRule>, l0: Ledger, path: seq<Stand>, l: Ledger, mia: AssetId, g: Guide, last: View,
      enabled: bool, end: Verdict)
    requires Collateralized(l0.calls, mia) && Ended(rules, l0, path, l, mia, g, last, enabled, end)
    requires l0.bits[mia].settlement.None? && l0.bits[mia].feed.Some?
    ensures end.SettlesAt? && end.price.quote == 0 <==>
      enabled && |path| > 1 && !Collateralized(path[|path| - 1].ledger.calls, mia)
    ensures end.SettlesAt? && end.price.quote == 0 ==> IsForNothing(path[|path| - 1].ledger, l, mia)
  {
    var p := path[|path| - 1];
    FirstTells(p.ledger, mia, g, p.cursor, last);
    if last.call.Some? { EmptySettlesForNothing(p.ledger, mia, g, last, p.cursor, enabled); }
    if end.SettlesAt? && end.price.quote == 0 { NothingIsGathered(p.ledger, l, mia, end.price); }
  }

  // ---------- what becomes of the bids ----------

  /** Bids are only passed once one has been used up, and then none is read after it was removed. */
  ghost predicate CursorFits(k: Cursor) {
    (k.stale ==> !k.used) && (!k.used ==> k.passed == {})
  }

  /** A round uses up its bid. */
  ghost predicate UsesUp(
      rules: map<AssetId, FeeRule>, p: Stand, q: Stand, mia: AssetId, g: Guide, enabled: bool)
  {
    exists v :: IsCallRoundAt(rules, p, q, mia, g, enabled, v) && Covers(rules, p, mia, g, enabled, v)
  }

  /** The position owes at least what the bid sells. */
  ghost predicate Covers(rules: map<AssetId, FeeRule>, p: Stand, mia: AssetId, g: Guide, enabled: bool, v: View) {
    && v.call.Some? && v.bid.Some? && v.call.value in p.ledger.calls && v.bid.value in p.ledger.limits
    && p.ledger.calls[v.call.value].debt >= p.ledger.limits[v.bid.value].forSale
  }

  /** One of the rounds has. */
  ghost predicate HasUsedUp(
      rules: map<AssetId, FeeRule>, path: seq<Stand>, mia: AssetId, g: Guide, enabled: bool)
  {
    var n := |path| - 1;
    n > 0 && (UsesUp(rules, path[n - 1], path[n], mia, g, enabled) || HasUsedUp(rules, path[..n], mia, g, enabled))
  }

  lemma ShorterCheck(rules: map<AssetId, FeeRule>, path: seq<Stand>, mia: AssetId, g: Guide, enabled: bool, n: nat)
    requires IsCheck(rules, path, mia, g, enabled) && 0 < n == |path| - 1
    ensures IsCheck(rules, path[..n], mia, g, enabled) && IsCallRound(rules, path[n - 1], path[n], mia, g, enabled)
  {
    forall j: nat | j < n - 1 ensures IsCallRound(rules, path[..n][j], path[..n][j + 1], mia, g, enabled) {
      assert IsCallRound(rules, path[j], path[j + 1], mia, g, enabled);
    }
    assert IsCallRound(rules, path[n - 1], path[n - 1 + 1], mia, g, enabled);
  }

  /** Over a whole check, bids are passed exactly when one has been used up. */
  lemma {:induction false} PassesExactly(
      rules: map<AssetId, FeeRule>, path: seq<Stand>, mia: AssetId, g: Guide, enabled: bool)
    requires IsCheck(rules, path, mia, g, enabled) && path[0].cursor == START
    ensures var k := path[|path| - 1].cursor;
      CursorFits(k) && (k.used <==> HasUsedUp(rules, path, mia, g, enabled))
    decreases |path|
  {
    var n := |path| - 1;
    if n > 0 {
      ShorterCheck(rules, path, mia, g, enabled, n);
      PassesExactly(rules, path[..n], mia, g, enabled);
      var v :| IsCallRoundAt(rules, path[n - 1], path[n], mia, g, enabled, v);
      RoundPasses(rules, path[n - 1], path[n], mia, g, enabled, v);
    }
  }

  lemma RoundPasses(
      rules: map<AssetId, FeeRule>, p: Stand, q: Stand, mia: AssetId, g: Guide, enabled: bool, v: View)
    requires IsCallRoundAt(rules, p, q, mia, g, enabled, v) && CursorFits(p.cursor)
    ensures CursorFits(q.cursor) && (q.cursor.used <==> p.cursor.used || UsesUp(rules, p, q, mia, g, enabled))
  {
    CallIsPossible(rules, p.ledger, mia, g, v, p.cursor, enabled);
    forall w | IsCallRoundAt(rules, p, q, mia, g, enabled, w) && Covers(rules, p, mia, g, enabled, w)
      ensures q.cursor.used
    {
      CallIsPossible(rules, p.ledger, mia, g, w, p.cursor, enabled);
    }
  }

  /** The first position, if there is any, is no black swan. */
  ghost predicate IsSafe(l: Ledger, mia: AssetId, v: View)
    requires mia in l.bits && l.bits[mia].feed.Some? && (v.call.Some? ==> v.call.value in l.calls)
    requires v.best.Some? ==> v.best.value in l.limits
  {
    v.call.Some? && !IsSwan(l.calls[v.call.value], Highest(l.limits, v.best, l.bits[mia].feed.value))
  }

  /** A market in which positions can be called: it has a feed and is neither settled nor a prediction market. */
  predicate IsOpen(b: BitAsset) {
    b.settlement.None? && b.feed.Some? && !b.prediction
  }

  lemma UndefinedWhenStale(l: Ledger, mia: AssetId, g: Guide, v: View, k: Cursor, enabled: bool)
    requires Sees(l, mia, g, k, v) && IsOpen(l.bits[mia])
    ensures VerdictOn(l, mia, g, v, k, enabled) == Undefined <==> k.stale && IsSafe(l, mia, v)
  {
  }

  lemma CalledMarketIsOpen(
      rules: map<AssetId, FeeRule>, p: Stand, q: Stand, mia: AssetId, g: Guide, enabled: bool, v: View)
    requires IsCallRoundAt(rules, p, q, mia, g, enabled, v)
    ensures v.call.Some? && v.bid.Some? && v.call.value in p.ledger.calls && v.bid.value in p.ledger.limits
    ensures q.ledger.bits == p.ledger.bits && IsOpen(q.ledger.bits[mia])
    ensures q.cursor
      == Advanced(p.cursor, v.bid.value, p.ledger.calls[v.call.value], p.ledger.limits[v.bid.value])
  {
    CallIsPossible(rules, p.ledger, mia, g, v, p.cursor, enabled);
  }

  /** A removed bid is read after a round exactly when no bid has been used up yet, this one included, too little of it
      is left to be sold, and there is another position that is no black swan. */
  lemma UndefinedExactly(
      rules: map<AssetId, FeeRule>, p: Stand, q: Stand, mia: AssetId, g: Guide, enabled: bool, v: View, v': View)
    requires IsCallRoundAt(rules, p, q, mia, g, enabled, v) && Sees(q.ledger, mia, g, q.cursor, v')
    ensures v.call.Some? && v.bid.Some? && v.call.value in p.ledger.calls && v.bid.value in p.ledger.limits
    ensures mia in q.ledger.bits && q.ledger.bits[mia].feed.Some?
    ensures var c, o := p.ledger.calls[v.call.value], p.ledger.limits[v.bid.value];
      VerdictOn(q.ledger, mia, g, v', q.cursor, enabled) == Undefined <==>
        !p.cursor.used && c.debt < o.forSale && LeavesDust(o, c.debt) && IsSafe(q.ledger, mia, v')
  {
    CalledMarketIsOpen(rules, p, q, mia, g, enabled, v);
    UndefinedWhenStale(q.ledger, mia, g, v', q.cursor, enabled);
  }

  /** A check at rest where a fresh look would not rest: exactly when every bid not below the squeeze price has been
      passed and the best of them is not too high to call with. */
  lemma RestsBesideBid(l: Ledger, mia: AssetId, g: Guide, k: Cursor, v: View, w: View, enabled: bool)
    requires AllSound(l.limits) && Sees(l, mia, g, k, v) && Sees(l, mia, g, START, w)
    requires VerdictOn(l, mia, g, v, k, enabled) == Quiet
    ensures VerdictOn(l, mia, g, w, START, enabled) != Quiet <==>
      && IsOpen(l.bits[mia]) && v.call.Some? && v.bid.None? && w.bid.Some?
      && !IsProtected(g.callPrices[v.call.value], l.limits[w.bid.value], l.bits[mia].feed.value)
  {
    SeesTheSame(l, mia, g, k, v, w);
    if v.call.Some? && v.bid.Some? && l.bits[mia].feed.Some? {
      BetterIsProtected(l, mia, g, k, v, w);
    }
  }

  lemma SeesTheSame(l: Ledger, mia: AssetId, g: Guide, k: Cursor, v: View, w: View)
    requires AllSound(l.limits) && Sees(l, mia, g, k, v) && Sees(l, mia, g, START, w)
    ensures v.call == w.call && v.best == w.best
  {
    PricesAreOrdered(l.limits);
    var bids := Bids(l.limits, LowestPrice(mia, l.bits[mia].backing)) - {};
    if v.call.Some? && w.call.Some? { FirstIsUnique(g.callPrices, CallsOf(l.calls, mia), v.call.value, w.call.value); }
    if v.best.Some? && w.best.Some? { FirstIsUnique(PricesOf(l.limits), bids, v.best.value, w.best.value); }
  }

  /** A position that is protected from a bid is protected from every better one. */
  lemma BetterIsProtected(l: Ledger, mia: AssetId, g: Guide, k: Cursor, v: View, w: View)
    requires AllSound(l.limits) && Sees(l, mia, g, k, v) && Sees(l, mia, g, START, w)
    requires v.call.Some? && v.bid.Some? && l.bits[mia].feed.Some?
    ensures w.bid.Some?
    ensures var feed, callPrice := l.bits[mia].feed.value, g.callPrices[v.call.value];
      IsProtected(callPrice, l.limits[v.bid.value], feed) ==> IsProtected(callPrice, l.limits[w.bid.value], feed)
  {
    assert v.bid.value in Bids(l.limits, g.squeeze) - START.passed;
    var x, y, z := g.callPrices[v.call.value], l.limits[v.bid.value].price, l.limits[w.bid.value].price;
    LessIsTransitive(x, z, y);
    if w.bid != v.bid { assert Before(PricesOf(l.limits)[w.bid.value], w.bid.value, y, v.bid.value); }
  }

  /** So a check in which no bid has been used up rests only where nothing is left to call. */
  lemma RestIsRest(l: Ledger, mia: AssetId, g: Guide, k: Cursor, v: View, w: View, enabled: bool)
    requires AllSound(l.limits) && Sees(l, mia, g, k, v) && Sees(l, mia, g, START, w)
    requires VerdictOn(l, mia, g, v, k, enabled) == Quiet && CursorFits(k) && !k.used
    ensures VerdictOn(l, mia, g, w, START, enabled) == Quiet
  {
    RestsBesideBid(l, mia, g, k, v, w, enabled);
  }
}
