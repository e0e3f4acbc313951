/** Markets that show where a check for margin calls can end (libraries/chain/db_market.cpp:427-545). */
module CallExamples {
  import opened Common
  import opened MapSums
  import opened Prices
  import opened PriceIndices
  import opened Ledgers
  import opened Trading
  import opened OrderBooks
  import opened Backings
  import opened MarketDatabases
  import opened ForcedSettlements
  import opened MarginCalls
  import opened CallChecks

  const RATIO_DENOM: nat := 1000  // of the collateral ratios

  /** The debt per collateral below which a position is not called, by the maintenance ratio. */
  function CallPrice(c: CallOrder, maintenance: nat): Price {
    Price(c.debt * maintenance, c.mia, c.collateral * RATIO_DENOM, c.backing)
  }

  /** The lowest bid that a call may be filled with, by the squeeze ratio. */
  function SqueezePrice(feed: Price, squeeze: nat): Price {
    Price(feed.base * RATIO_DENOM, feed.baseId, feed.quote * squeeze, feed.quoteId)
  }

  /** A market of asset 1 against core, with nothing but bids, positions and a feed. */
  function Market(limits: Book, calls: map<OrderId, CallOrder>, supply: nat, feed: Price): Ledger {
    Ledger(map[], limits, calls, map[], map[], 0, map[1 := supply],
           map[1 := BitAsset(CORE, false, true, 0, 0, 0, Some(feed), 0, None, 0)])
  }

  lemma MarketIsBacked(limits: Book, calls: map<OrderId, CallOrder>, supply: nat, feed: Price)
    requires Positive(feed) && feed.baseId == 1 && feed.quoteId == CORE
    requires CallsFit(Market(limits, calls, supply, feed).bits, calls)
    requires Sum(limits, ForSaleIn(1)) + Sum(calls, CollateralIn(1)) <= supply == Sum(calls, DebtIn(1))
    ensures Backed(Market(limits, calls, supply, feed))
  {
    var l := Market(limits, calls, supply, feed);
    forall a: AssetId ensures Covered(l, a) { SumOfOne(l.bits, 1, FundIn(a)); }
  }

  const FIRST := View(Some(0), Some(0), Some(0))

  /** The round that follows a look which says so. */
  lemma RoundFollows(p: Stand, g: Guide, v: View)
    returns (q: Stand)
    requires Backed(p.ledger) && AllSound(p.ledger.limits) && Sees(p.ledger, 1, g, p.cursor, v)
    requires VerdictOn(p.ledger, 1, g, v, p.cursor, true) == Calls
    ensures IsCallRoundAt(map[], p, q, 1, g, true, v) && Backed(q.ledger)
    ensures v.call.Some? && v.bid.Some? && IsCallOf(map[], p.ledger, v.call.value, v.bid.value)
    ensures q.ledger == AfterCall(map[], p.ledger, v.call.value, v.bid.value)
    ensures q.cursor
      == Advanced(p.cursor, v.bid.value, p.ledger.calls[v.call.value], p.ledger.limits[v.bid.value])
  {
    CallIsPossible(map[], p.ledger, 1, g, v, p.cursor, true);
    q := Stand(AfterCall(map[], p.ledger, v.call.value, v.bid.value),
               Advanced(p.cursor, v.bid.value, p.ledger.calls[v.call.value], p.ledger.limits[v.bid.value]));
    CallMoves(map[], p.ledger, v.call.value, v.bid.value);
  }

  // ---------- a settlement for nothing ----------

  /** One position, owing three of asset 1 against one core, and one bid. */
  function OneCall(): Ledger {
    Market(map[0 := LimitOrder(1, 2, Price(2, 1, 1, CORE), 0)], map[0 := CallOrder(0, 1, 3, CORE, 1)], 3,
           Price(4, 1, 1, CORE))
  }

  const GUIDE := Guide(SqueezePrice(Price(4, 1, 1, CORE), 2000), map[0 := CallPrice(OneCall().calls[0], 1750)])

  lemma OneCallIsBacked(l: Ledger)
    requires l == OneCall()
    ensures Backed(l) && AllSound(l.limits) && Collateralized(l.calls, 1)
  {
    SumOfOne(l.limits, 0, ForSaleIn(1));
    SumOfOne(l.calls, 0, CollateralIn(1));
    SumOfOne(l.calls, 0, DebtIn(1));
    MarketIsBacked(l.limits, l.calls, 3, Price(4, 1, 1, CORE));
  }

  lemma OneCallIsCalled(l: Ledger)
    requires l == OneCall()
    ensures Sees(l, 1, GUIDE, START, FIRST) && VerdictOn(l, 1, GUIDE, FIRST, START, true) == Calls
  {
    assert Bids(l.limits, LowestPrice(1, CORE)) == {0} && Bids(l.limits, GUIDE.squeeze) == {0};
    assert CallsOf(l.calls, 1) == {0};
    assert Times(3, 1, Price(2, 1, 1, CORE)) == Some(1);
  }

  ghost predicate IsEmptied(q: Stand) {
    && q.ledger.limits == map[] && q.ledger.bits == OneCall().bits
    && q.ledger.calls == map[0 := CallOrder(0, 0, 1, CORE, 1)] && q.cursor == Cursor({0}, true, false)
  }

  lemma OneCallEmptied(l: Ledger)
    requires l == OneCall() && IsCallOf(map[], l, 0, 0)
    ensures IsEmptied(Stand(AfterCall(map[], l, 0, 0), Advanced(START, 0, l.calls[0], l.limits[0])))
  {
    assert CallAmount(l.calls[0], l.limits[0]) == 2 && CallPays(l.calls[0], l.limits[0]) == 1;
    assert AfterFill(l.limits, 0, 2, false) == map[];
  }

  /** A round that takes a position's last collateral but not its debt, after which the next look settles the asset for
      nothing. */
  lemma CallCanEmptyPosition()
    returns (q: Stand)
    ensures Backed(OneCall()) && Collateralized(OneCall().calls, 1)
    ensures IsCallRoundAt(map[], Stand(OneCall(), START), q, 1, GUIDE, true, FIRST)
    ensures q.ledger.calls == map[0 := CallOrder(0, 0, 1, CORE, 1)]
    ensures var v := View(Some(0), None, None);
      && Sees(q.ledger, 1, GUIDE, q.cursor, v)
      && VerdictOn(q.ledger, 1, GUIDE, v, q.cursor, true) == SettlesAt(Price(1, 1, 0, CORE))
  {
    var l := OneCall();
    OneCallIsBacked(l);
    OneCallIsCalled(l);
    q := RoundFollows(Stand(l, START), GUIDE, FIRST);
    OneCallEmptied(l);
    EmptiedIsSettled(q);
  }

  lemma EmptiedIsSettled(q: Stand)
    requires Backed(q.ledger) && IsEmptied(q)
    ensures var v := View(Some(0), None, None);
      && Sees(q.ledger, 1, GUIDE, q.cursor, v)
      && VerdictOn(q.ledger, 1, GUIDE, v, q.cursor, true) == SettlesAt(Price(1, 1, 0, CORE))
  {
    var v := View(Some(0), None, None);
    assert CallsOf(q.ledger.calls, 1) == {0};
    assert Sees(q.ledger, 1, GUIDE, q.cursor, v);
    EmptySettlesForNothing(q.ledger, 1, GUIDE, v, q.cursor, true);
  }

  // ---------- a removed bid ----------

  const TEN := Price(10, 1, 1, CORE)

  /** Two equal positions and a bid for a little more than the debt of one. */
  function TwoCalls(): Ledger {
    Market(map[0 := LimitOrder(2, 10, TEN, 0)],
           map[0 := CallOrder(0, 1, 8, CORE, 1), 1 := CallOrder(1, 1, 8, CORE, 1)], 16, TEN)
  }

  const PAIR := Guide(Price(5, 1, 1, CORE), map[0 := Price(14, 1, 1, CORE), 1 := Price(14, 1, 1, CORE)])

  lemma TwoCallsIsBacked(l: Ledger)
    requires l == TwoCalls()
    ensures Backed(l) && AllSound(l.limits) && Collateralized(l.calls, 1)
  {
    SumOfOne(l.limits, 0, ForSaleIn(1));
    SumOfTwo(l.calls, 0, 1, CollateralIn(1));
    SumOfTwo(l.calls, 0, 1, DebtIn(1));
    MarketIsBacked(l.limits, l.calls, 16, TEN);
  }

  lemma TwoCallsAreCalled(l: Ledger)
    requires l == TwoCalls()
    ensures Sees(l, 1, PAIR, START, FIRST) && VerdictOn(l, 1, PAIR, FIRST, START, true) == Calls
  {
    assert Bids(l.limits, LowestPrice(1, CORE)) == {0} && Bids(l.limits, PAIR.squeeze) == {0};
    assert CallsOf(l.calls, 1) == {0, 1};
    assert Times(8, 1, TEN) == Some(0);
  }

  ghost predicate IsWithoutBid(q: Stand) {
    && q.ledger.limits == map[] && q.ledger.bits == TwoCalls().bits
    && q.ledger.calls == map[1 := CallOrder(1, 1, 8, CORE, 1)] && q.cursor == Cursor({}, false, true)
  }

  lemma TwoCallsLeaveOne(l: Ledger)
    requires l == TwoCalls() && IsCallOf(map[], l, 0, 0)
    ensures IsWithoutBid(Stand(AfterCall(map[], l, 0, 0), Advanced(START, 0, l.calls[0], l.limits[0])))
  {
    var c, o := l.calls[0], l.limits[0];
    assert CallAmount(c, o) == 8 && CallPays(c, o) == 0 && ToReceive(Rest(o, 8)) == 0;
    assert AfterFill(l.limits, 0, 8, true) == map[];
    assert l.calls - {0} == map[1 := l.calls[1]];
  }

  /** Without a bid the other position is safe, and would be looked at with the one before. */
  lemma RemovedIsRead(q: Stand)
    requires IsWithoutBid(q)
    ensures var v := View(Some(1), None, None);
      Sees(q.ledger, 1, PAIR, q.cursor, v) && VerdictOn(q.ledger, 1, PAIR, v, q.cursor, true) == Undefined
  {
    assert CallsOf(q.ledger.calls, 1) == {1};
  }

  /** The first round leaves too little of the bid to be sold, and the second reads it after it was removed. */
  lemma BidCanBeGone()
    returns (q: Stand)
    ensures Backed(TwoCalls()) && Collateralized(TwoCalls().calls, 1)
    ensures IsCallRoundAt(map[], Stand(TwoCalls(), START), q, 1, PAIR, true, FIRST)
    ensures var v := View(Some(1), None, None);
      Sees(q.ledger, 1, PAIR, q.cursor, v) && VerdictOn(q.ledger, 1, PAIR, v, q.cursor, true) == Undefined
  {
    var l := TwoCalls();
    TwoCallsIsBacked(l);
    TwoCallsAreCalled(l);
    q := RoundFollows(Stand(l, START), PAIR, FIRST);
    TwoCallsLeaveOne(l);
    RemovedIsRead(q);
  }

  // ---------- a bid that is passed ----------

  /** Two equal positions, a bid for half the debt of one, and one for more than the rest. */
  function TwoBids(): Ledger {
    Market(map[0 := LimitOrder(2, 40, TEN, 0), 1 := LimitOrder(2, 100, TEN, 0)],
           map[0 := CallOrder(0, 10, 80, CORE, 1), 1 := CallOrder(1, 10, 80, CORE, 1)], 160, TEN)
  }

  lemma TwoBidsIsBacked(l: Ledger)
    requires l == TwoBids()
    ensures Backed(l) && AllSound(l.limits)
  {
    TwoBidsAdd(l);
    TwoBidsFit(l);
    MarketIsBacked(l.limits, l.calls, 160, TEN);
  }

  lemma TwoBidsAdd(l: Ledger)
    requires l == TwoBids()
    ensures Sum(l.limits, ForSaleIn(1)) == 140 && Sum(l.calls, CollateralIn(1)) == 0 && Sum(l.calls, DebtIn(1)) == 160
  {
    SumOfTwo(l.limits, 0, 1, ForSaleIn(1));
    SumOfTwo(l.calls, 0, 1, CollateralIn(1));
    SumOfTwo(l.calls, 0, 1, DebtIn(1));
  }

  lemma TwoBidsFit(l: Ledger)
    requires l == TwoBids()
    ensures CallsFit(l.bits, l.calls) && AllSound(l.limits)
  {
  }

  lemma TwoBidsAreSeen(l: Ledger)
    requires l == TwoBids()
    ensures Sees(l, 1, PAIR, START, FIRST)
  {
    assert Bids(l.limits, LowestPrice(1, CORE)) == {0, 1} && Bids(l.limits, PAIR.squeeze) == {0, 1};
    assert CallsOf(l.calls, 1) == {0, 1};
  }

  lemma TwoBidsAreCalled(l: Ledger)
    requires l == TwoBids()
    ensures Sees(l, 1, PAIR, START, FIRST) && VerdictOn(l, 1, PAIR, FIRST, START, true) == Calls
  {
    TwoBidsAreSeen(l);
    assert Times(80, 1, TEN) == Some(8);
  }

  lemma TwoBidsLeaveOne(l: Ledger)
    requires l == TwoBids() && IsCallOf(map[], l, 0, 0)
    ensures IsHalfway(Stand(AfterCall(map[], l, 0, 0), Advanced(START, 0, l.calls[0], l.limits[0])))
  {
    assert CallAmount(l.calls[0], l.limits[0]) == 40 && CallPays(l.calls[0], l.limits[0]) == 4;
    assert AfterFill(l.limits, 0, 40, false) == map[1 := l.limits[1]];
    assert l.calls[0 := CallOrder(0, 6, 40, CORE, 1)] == map[0 := CallOrder(0, 6, 40, CORE, 1), 1 := l.calls[1]];
  }

  /** The first bid is used up. */
  lemma FirstBidIsUsed(l: Ledger)
    returns (q: Stand)
    requires l == TwoBids()
    ensures IsCallRoundAt(map[], Stand(l, START), q, 1, PAIR, true, FIRST)
    ensures IsHalfway(q) && Backed(q.ledger)
  {
    TwoBidsIsBacked(l);
    TwoBidsAreCalled(l);
    q := RoundFollows(Stand(l, START), PAIR, FIRST);
    TwoBidsLeaveOne(l);
  }

  ghost predicate IsHalfway(q: Stand) {
    && q.ledger.limits == map[1 := LimitOrder(2, 100, TEN, 0)] && q.ledger.bits == TwoBids().bits
    && q.ledger.calls == map[0 := CallOrder(0, 6, 40, CORE, 1), 1 := CallOrder(1, 10, 80, CORE, 1)]
    && q.cursor == Cursor({0}, true, false)
  }

  const SECOND := View(Some(0), Some(1), Some(1))

  lemma HalfwayIsSeen(p: Stand)
    requires IsHalfway(p)
    ensures Sees(p.ledger, 1, PAIR, p.cursor, SECOND)
  {
    assert Bids(p.ledger.limits, LowestPrice(1, CORE)) == {1} && Bids(p.ledger.limits, PAIR.squeeze) == {1};
    assert CallsOf(p.ledger.calls, 1) == {0, 1};
  }

  lemma HalfwayIsCalled(p: Stand)
    requires IsHalfway(p)
    ensures Sees(p.ledger, 1, PAIR, p.cursor, SECOND)
    ensures VerdictOn(p.ledger, 1, PAIR, SECOND, p.cursor, true) == Calls
  {
    HalfwayIsSeen(p);
    assert Times(40, 1, TEN) == Some(4);
  }

  lemma HalfwayLeavesRest(l: Ledger, k: Cursor)
    requires IsHalfway(Stand(l, k)) && IsCallOf(map[], l, 0, 1)
    ensures IsLeftOver(Stand(AfterCall(map[], l, 0, 1), Advanced(k, 1, l.calls[0], l.limits[1])))
  {
    assert CallAmount(l.calls[0], l.limits[1]) == 40 && CallPays(l.calls[0], l.limits[1]) == 4;
    assert ToReceive(Rest(l.limits[1], 40)) == 6;
    assert AfterFill(l.limits, 1, 40, false) == map[1 := LimitOrder(2, 60, TEN, 0)];
    assert l.calls - {0} == map[1 := l.calls[1]];
  }

  /** The second pays off the first position, and is passed although most of it is left. */
  lemma SecondBidIsPassed(p: Stand)
    returns (q: Stand)
    requires IsHalfway(p) && Backed(p.ledger)
    ensures IsCallRoundAt(map[], p, q, 1, PAIR, true, SECOND) && IsLeftOver(q)
  {
    HalfwayIsCalled(p);
    q := RoundFollows(p, PAIR, SECOND);
    HalfwayLeavesRest(p.ledger, p.cursor);
  }

  ghost predicate IsLeftOver(q: Stand) {
    && q.ledger.limits == map[1 := LimitOrder(2, 60, TEN, 0)] && q.ledger.bits == TwoBids().bits
    && q.ledger.calls == map[1 := CallOrder(1, 10, 80, CORE, 1)] && q.cursor == Cursor({0, 1}, true, false)
  }

  /** So the check comes to rest beside a bid with which the other position would be called. */
  lemma LeftOverIsNotCalled(q: Stand)
    requires IsLeftOver(q)
    ensures var v, w := View(Some(1), Some(1), None), View(Some(1), Some(1), Some(1));
      && Sees(q.ledger, 1, PAIR, q.cursor, v) && VerdictOn(q.ledger, 1, PAIR, v, q.cursor, true) == Quiet
      && Sees(q.ledger, 1, PAIR, START, w) && VerdictOn(q.ledger, 1, PAIR, w, START, true) == Calls
  {
    assert Bids(q.ledger.limits, LowestPrice(1, CORE)) == {1} && Bids(q.ledger.limits, PAIR.squeeze) == {1};
    assert CallsOf(q.ledger.calls, 1) == {1};
    assert Times(80, 1, TEN) == Some(8);
  }

  /** A whole check, of two rounds, that does. */
  lemma CheckCanPassBid()
    returns (path: seq<Stand>)
    ensures Backed(TwoBids()) && IsCheck(map[], path, 1, PAIR, true) && path[0] == Stand(TwoBids(), START)
    ensures var l, k := path[|path| - 1].ledger, path[|path| - 1].cursor;
      var v, w := View(Some(1), Some(1), None), View(Some(1), Some(1), Some(1));
      && Sees(l, 1, PAIR, k, v) && VerdictOn(l, 1, PAIR, v, k, true) == Quiet
      && Sees(l, 1, PAIR, START, w) && VerdictOn(l, 1, PAIR, w, START, true) == Calls
  {
    var l := TwoBids();
    TwoBidsIsBacked(l);
    var p := FirstBidIsUsed(l);
    var q := SecondBidIsPassed(p);
    LeftOverIsNotCalled(q);
    assert IsCallRound(map[], Stand(l, START), p, 1, PAIR, true) && IsCallRound(map[], p, q, 1, PAIR, true);
    path := TwoRounds(map[], Stand(l, START), p, q, PAIR);
  }

  lemma TwoRounds(rules: map<AssetId, FeeRule>, o: Stand, p: Stand, q: Stand, g: Guide)
    returns (path: seq<Stand>)
    requires IsCallRound(rules, o, p, 1, g, true) && IsCallRound(rules, p, q, 1, g, true)
    ensures IsCheck(rules, path, 1, g, true) && path[0] == o && path[|path| - 1] == q
  {
    var start := [o];
    OneMoreCall(rules, start, p, 1, g, true);
    path := start + [p];
    assert path[|path| - 1] == p;
    OneMoreCall(rules, path, q, 1, g, true);
    path := path + [q];
  }
}
