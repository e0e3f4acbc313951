/** Forced settlement (libraries/chain/db_update.cpp:300-437): one position after another buys debt back at the feed
    price, up to a cap for each asset and maintenance interval. */
module ForcedSettlements {
  import opened Common
  import opened Arithmetic
  import opened Prices
  import opened Ledgers
  import opened Trading
  import opened Backings
  import opened MarketDatabases

  // ---------- single steps ----------

  /** Every position in the asset has collateral left, and none owes more than there can be. */
  ghost predicate Collateralized(calls: map<OrderId, CallOrder>, mia: AssetId) {
    forall i :: i in calls && calls[i].mia == mia ==> calls[i].collateral > 0 && calls[i].debt <= MAX_SHARE_SUPPLY
  }

  /** Settling takes no position's last collateral. */
  ghost predicate KeepsCollateral(calls: map<OrderId, CallOrder>, calls': map<OrderId, CallOrder>) {
    forall a: AssetId :: Collateralized(calls, a) ==> Collateralized(calls', a)
  }

  lemma FilledCallFits(bits: map<AssetId, BitAsset>, l: Ledger, call: OrderId, pays: nat, n: nat)
    requires CallsFit(bits, l.calls) && call in l.calls && pays <= l.calls[call].collateral && n <= l.calls[call].debt
    ensures CallsFit(bits, FilledCall(l, call, pays, n).calls)
  {
  }

  lemma FilledCallKeepsCollateral(l: Ledger, call: OrderId, pays: nat, n: nat)
    requires call in l.calls && pays < l.calls[call].collateral && n <= l.calls[call].debt
    ensures KeepsCollateral(l.calls, FilledCall(l, call, pays, n).calls)
  {
  }

  lemma MatchedSettleMovesTogether(l: Ledger, call: OrderId, settle: OrderId, n: nat, pays: nat, fee: nat)
    requires call in l.calls && n <= l.calls[call].debt && pays <= l.calls[call].collateral && fee <= pays
    requires settle in l.settles && n <= l.settles[settle].amount && l.settles[settle].mia == l.calls[call].mia
    ensures var l', mia := MatchedSettle(l, call, settle, n, pays, fee), l.calls[call].mia;
      MovedTogether(l, l', mia) && GetInt(l'.supply, mia) == GetInt(l.supply, mia) - n
  {
    var l', mia := MatchedSettle(l, call, settle, n, pays, fee), l.calls[call].mia;
    MatchSettleHolds(l, call, settle, n, pays, fee, mia);
    forall a: AssetId ensures Moved(l, l', a, mia) {
      MatchSettleHolds(l, call, settle, n, pays, fee, a);
    }
  }

  lemma MatchedSettleKeepsBacked(l: Ledger, call: OrderId, settle: OrderId, n: nat, pays: nat, fee: nat)
    requires Backed(l) && call in l.calls && n <= l.calls[call].debt && pays <= l.calls[call].collateral && fee <= pays
    requires settle in l.settles && n <= l.settles[settle].amount && l.settles[settle].mia == l.calls[call].mia
    ensures Backed(MatchedSettle(l, call, settle, n, pays, fee))
  {
    MatchedSettleMovesTogether(l, call, settle, n, pays, fee);
    FilledCallFits(l.bits, l, call, pays, n);
    assert CallFits(l.bits, l.calls[call]);
    MovingTogetherKeepsBacked(l, MatchedSettle(l, call, settle, n, pays, fee), l.calls[call].mia);
  }

  lemma CancelledSettleKeepsBacked(l: Ledger, id: OrderId)
    requires Backed(l) && id in l.settles
    ensures var l' := CancelledSettle(l, id); Backed(l') && MovedTogether(l, l', l.settles[id].mia)
  {
    var l' := CancelledSettle(l, id);
    var mia := l.settles[id].mia;
    forall a: AssetId ensures Moved(l, l', a, mia) && Covered(l', a) {
      CancelSettleHolds(l, id, a);
      assert Covered(l, a);
    }
  }

  // ---------- one order ----------

  /** The order is worth settling: its asset has a feed and is below its cap. */
  ghost predicate Due(l: Ledger, id: OrderId, price: Price, max: int) {
    && Backed(l) && id in l.settles
    && var s := l.settles[id];
    && l.bits[s.mia].settlement.None?
    && l.bits[s.mia].settledVolume < max == Volume(l.bits[s.mia], GetInt(l.supply, s.mia))
    && price.base == s.amount && price.baseId == s.mia && price.quoteId == l.bits[s.mia].backing
    && price.quote <= MAX_SHARE_SUPPLY
  }

  /** Part of the order has been settled: supply and settled volume make up for each other. */
  ghost predicate Settling(l0: Ledger, l: Ledger, id: OrderId, settled: int) {
    && Backed(l) && id in l0.settles && l0.settles[id].mia in l0.bits
    && var s := l0.settles[id];
    && var done := settled - l0.bits[s.mia].settledVolume;
    && 0 <= done
    && l == l0.(balances := l.balances, fees := l.fees, calls := l.calls, supply := l.supply, settles := l.settles)
    && MovedTogether(l0, l, s.mia) && GetInt(l.supply, s.mia) == GetInt(l0.supply, s.mia) - done
    && PartlySettled(l0.settles, l.settles, id, done) && KeepsCollateral(l0.calls, l.calls)
  }

  ghost predicate PartlySettled(before: map<OrderId, SettleOrder>, now: map<OrderId, SettleOrder>, id: OrderId,
      done: nat)
    requires id in before
  {
    if id in now then done <= before[id].amount && now == before[id := before[id].(amount := before[id].amount - done)]
    else now == before - {id}
  }

  lemma SettledFurther(before: map<OrderId, SettleOrder>, now: map<OrderId, SettleOrder>, id: OrderId, done: nat,
      n: nat)
    requires id in before && id in now && PartlySettled(before, now, id, done) && n <= now[id].amount
    ensures PartlySettled(before, AfterSettle(now, id, n), id, done + n)
  {
    var s := before[id].(amount := before[id].amount - done);
    assert now == before[id := s];
    assert now - {id} == before - {id};
    if n < s.amount {
      assert before[id := s][id := s.(amount := s.amount - n)] == before[id := s.(amount := s.amount - n)];
    }
  }

  lemma SettlingStarts(l: Ledger, id: OrderId)
    requires Backed(l) && id in l.settles
    ensures Settling(l, l, id, l.bits[l.settles[id].mia].settledVolume)
  {
    assert l.settles == l.settles[id := l.settles[id]];
  }

  lemma SettlingGoesOn(l0: Ledger, l: Ledger, id: OrderId, settled: int, call: OrderId, n: nat, pays: nat, fee: nat)
    requires Settling(l0, l, id, settled) && id in l.settles
    requires call in l.calls && n <= l.calls[call].debt && pays < l.calls[call].collateral && fee <= pays
    requires n <= l.settles[id].amount && l.settles[id].mia == l.calls[call].mia
    ensures Settling(l0, MatchedSettle(l, call, id, n, pays, fee), id, settled + n)
  {
    assert l.settles[id].mia == l0.settles[id].mia;
    MatchedSettleKeepsBacked(l, call, id, n, pays, fee);
    MatchedSettleMovesTogether(l, call, id, n, pays, fee);
    FilledCallKeepsCollateral(l, call, pays, n);
    SettlingStep(l0, l, MatchedSettle(l, call, id, n, pays, fee), id, settled, n);
  }

  lemma SettlingStep(l0: Ledger, l: Ledger, l': Ledger, id: OrderId, settled: int, n: nat)
    requires Settling(l0, l, id, settled) && id in l.settles && n <= l.settles[id].amount
    requires Backed(l') && MovedTogether(l, l', l0.settles[id].mia) && KeepsCollateral(l.calls, l'.calls)
    requires GetInt(l'.supply, l0.settles[id].mia) == GetInt(l.supply, l0.settles[id].mia) - n
    requires l' == l.(balances := l'.balances, fees := l'.fees, calls := l'.calls, supply := l'.supply,
      settles := AfterSettle(l.settles, id, n))
    ensures Settling(l0, l', id, settled + n)
  {
    var mia := l0.settles[id].mia;
    MovedOn(l0, l, l', mia);
    SettledFurther(l0.settles, l.settles, id, settled - l0.bits[mia].settledVolume, n);
  }

  lemma SettlingIsCancelled(l0: Ledger, l: Ledger, id: OrderId, settled: int)
    requires Settling(l0, l, id, settled) && id in l.settles
    ensures Settling(l0, CancelledSettle(l, id), id, settled)
  {
    CancelledSettleKeepsBacked(l, id);
    MovedOn(l0, l, CancelledSettle(l, id), l0.settles[id].mia);
  }

  lemma MovedOn(l0: Ledger, l1: Ledger, l2: Ledger, mia: AssetId)
    requires MovedTogether(l0, l1, mia) && MovedTogether(l1, l2, mia)
    ensures MovedTogether(l0, l2, mia)
  {
    forall a: AssetId ensures Moved(l0, l2, a, mia) {
      assert Moved(l0, l1, a, mia) && Moved(l1, l2, a, mia);
    }
  }

  /** Below the cap somebody owes the asset, so the lookup finds a position as long as all have collateral. */
  lemma PositionExists(l0: Ledger, l: Ledger, id: OrderId, price: Price, max: int, settled: int)
    requires Due(l0, id, price, max) && Settling(l0, l, id, settled) && settled < max && id in l.settles
    ensures l.settles[id].mia == l0.settles[id].mia && l.settles[id].amount <= price.base
    ensures exists i :: i in l.calls && l.calls[i].mia == l0.settles[id].mia
    ensures Collateralized(l.calls, l0.settles[id].mia) ==> ListedCalls(l.calls, l0.settles[id].mia) != {}
  {
    var mia := l0.settles[id].mia;
    var b := l0.bits[mia];
    SuppliedIsOwed(l, mia);
    CapStays(b, GetInt(l0.supply, mia), settled);
    BelowCapIsSupplied(b.(settledVolume := settled), GetInt(l.supply, mia));
    var i :| i in l.calls && l.calls[i].mia == mia;
    CallOwes(l, i);
    ListedHasCollateral(l.calls[i]);
    assert Collateralized(l.calls, mia) ==> i in ListedCalls(l.calls, mia);
  }

  lemma CanSettleWithLeast(l0: Ledger, l: Ledger, id: OrderId, price: Price, max: int, settled: int, call: OrderId)
    requires Due(l0, id, price, max) && Settling(l0, l, id, settled) && settled < max && id in l.settles
    requires call in l.calls && l.calls[call].mia == l0.settles[id].mia
    ensures l.settles[id].amount > 0 ==> CanSettle(l, call, id, price)
  {
    PositionExists(l0, l, id, price, max, settled);
    assert CallFits(l.bits, l.calls[call]);
    assert BitFits(l.calls[call].mia, l.bits[l.calls[call].mia]);
  }

  // ---------- the rounds ----------

  /** A state of the settling loop: the ledger and the settled volume. */
  datatype Point = Point(ledger: Ledger, settled: int)

  /** One round below the cap, with the least collateralized position that is listed: an order of nothing and one that
      the position cannot pay are cancelled, otherwise order and position are matched. */
  ghost predicate IsRound(rules: map<AssetId, FeeRule>, p: Point, q: Point, id: OrderId, price: Price, max: int) {
    p.settled < max && exists call :: IsRoundWith(rules, p, q, id, price, max, call)
  }

  ghost predicate IsRoundWith(rules: map<AssetId, FeeRule>, p: Point, q: Point, id: OrderId, price: Price, max: int,
      call: OrderId) {
    var l := p.ledger;
    && FairRules(rules) && id in l.settles && call in l.calls && p.settled <= max
    && IsLeast(l.calls, l.settles[id].mia, call)
    && if l.settles[id].amount == 0 then q == Point(CancelledSettle(l, id), p.settled)
       else
         && CanSettle(l, call, id, price)
         && (exists r :: SettlesBy(rules, p, q, id, price, max, call, r))
  }

  ghost predicate SettlesBy(
      rules: map<AssetId, FeeRule>, p: Point, q: Point, id: OrderId, price: Price, max: int, call: OrderId,
      r: SettleMatch)
    requires FairRules(rules) && CanSettle(p.ledger, call, id, price) && p.settled <= max
  {
    var l := p.ledger;
    match r
    case Settled(n) =>
      IsSettlement(rules, l, q.ledger, call, id, price, max - p.settled, r) && q.settled == p.settled + n
    case BlackSwan =>
      && IsSettlement(rules, l, l, call, id, price, max - p.settled, r)
      && q == Point(CancelledSettle(l, id), p.settled)
    case Refused => false
  }

  /** A whole settlement of an order: rounds from its beginning until it is gone or the cap is reached. */
  ghost predicate IsSettling(rules: map<AssetId, FeeRule>, path: seq<Point>, id: OrderId, price: Price, max: int) {
    && |path| > 0
    && forall k: nat :: k < |path| - 1 ==> IsRound(rules, path[k], path[k + 1], id, price, max)
  }

  lemma OneMoreRound(rules: map<AssetId, FeeRule>, path: seq<Point>, q: Point, id: OrderId, price: Price, max: int)
    requires IsSettling(rules, path, id, price, max) && IsRound(rules, path[|path| - 1], q, id, price, max)
    ensures IsSettling(rules, path + [q], id, price, max)
  {
    forall k: nat | k < |path| ensures IsRound(rules, (path + [q])[k], (path + [q])[k + 1], id, price, max) {
      if k < |path| - 1 { assert IsRound(rules, path[k], path[k + 1], id, price, max); }
    }
  }

  /** There is more to settle, but no position for it to be found. */
  ghost predicate IsStuck(p: Point, id: OrderId, max: int) {
    p.settled < max && id in p.ledger.settles && ListedCalls(p.ledger.calls, p.ledger.settles[id].mia) == {}
  }

  /** Settling with the least collateralized positions until the order is gone or the cap is reached; thrown out of
      exactly where it gets stuck, which is nowhere as long as all positions have collateral. */
  method SettleUpToCap(db: MarketDatabase, id: OrderId, price: Price, max: int)
      returns (thrown: bool, settled: int, ghost path: seq<Point>)
    requires FairRules(db.rules) && Due(db.Contents(), id, price, max)
    modifies db`balances, db`fees, db`calls, db`supply, db`settles
    ensures thrown == IsStuck(Point(db.Contents(), settled), id, max)
    ensures thrown ==> !Collateralized(old(db.calls), old(db.settles)[id].mia)
    ensures Settling(old(db.Contents()), db.Contents(), id, settled)
    ensures settled <= max && (!thrown && id in db.settles ==> settled == max)
    ensures IsSettling(db.rules, path, id, price, max)
    ensures path[0] == Point(old(db.Contents()), old(db.bits[db.settles[id].mia].settledVolume))
    ensures path[|path| - 1] == Point(db.Contents(), settled)
  {
    ghost var l0 := db.Contents();
    var mia := db.settles[id].mia;
    settled, thrown := db.bits[mia].settledVolume, false;
    SettlingStarts(l0, id);
    path := [Point(l0, settled)];
    while settled < max && id in db.settles
      invariant settled <= max && Settling(l0, db.Contents(), id, settled)
      invariant IsSettling(db.rules, path, id, price, max)
      invariant path[0] == Point(l0, l0.bits[mia].settledVolume) && path[|path| - 1] == Point(db.Contents(), settled)
      decreases max - settled, id in db.settles
    {
      thrown, settled := SettleRound(l0, db, id, price, max, settled);
      if thrown { return; }
      OneMoreRound(db.rules, path, Point(db.Contents(), settled), id, price, max);
      path := path + [Point(db.Contents(), settled)];
    }
  }

  lemma RoundIsMatch(
      rules: map<AssetId, FeeRule>, p: Point, q: Point, id: OrderId, price: Price, max: int, call: OrderId,
      r: SettleMatch)
    requires FairRules(rules) && CanSettle(p.ledger, call, id, price) && p.settled < max
    requires p.ledger.settles[id].amount > 0
    requires IsLeast(p.ledger.calls, p.ledger.settles[id].mia, call) && SettlesBy(rules, p, q, id, price, max, call, r)
    ensures IsRound(rules, p, q, id, price, max)
  {
    assert IsRoundWith(rules, p, q, id, price, max, call);
  }

  lemma RoundIsCancel(rules: map<AssetId, FeeRule>, p: Point, id: OrderId, price: Price, max: int, call: OrderId)
    requires FairRules(rules) && p.settled < max && id in p.ledger.settles && p.ledger.settles[id].amount == 0
    requires call in p.ledger.calls && IsLeast(p.ledger.calls, p.ledger.settles[id].mia, call)
    ensures IsRound(rules, p, Point(CancelledSettle(p.ledger, id), p.settled), id, price, max)
  {
    assert IsRoundWith(rules, p, Point(CancelledSettle(p.ledger, id), p.settled), id, price, max, call);
  }

  /** How a round ends: stuck, with nothing done in it, or done, with something settled or the order gone. */
  ghost predicate RoundEnds(
      rules: map<AssetId, FeeRule>, l0: Ledger, p: Point, q: Point, id: OrderId, price: Price, max: int, thrown: bool)
    requires id in l0.settles
  {
    if thrown then q == p && IsStuck(p, id, max) && !Collateralized(l0.calls, l0.settles[id].mia)
    else
      && p.settled <= q.settled <= max && Settling(l0, q.ledger, id, q.settled)
      && (q.settled > p.settled || id !in q.ledger.settles)
      && IsRound(rules, p, q, id, price, max)
  }

  /** Settling with the least collateralized position; an order of nothing and one in a black swan are cancelled. */
  method SettleRound(ghost l0: Ledger, db: MarketDatabase, id: OrderId, price: Price, max: int, settled: int)
      returns (thrown: bool, settled': int)
    requires FairRules(db.rules) && Due(l0, id, price, max) && Settling(l0, db.Contents(), id, settled)
    requires settled < max && id in db.settles
    modifies db`balances, db`fees, db`calls, db`supply, db`settles
    ensures RoundEnds(db.rules, l0, Point(old(db.Contents()), settled), Point(db.Contents(), settled'), id, price,
      max, thrown)
  {
    ghost var p := Point(db.Contents(), settled);
    settled' := settled;
    var call := FindPosition(l0, db, id, price, max, settled);
    thrown := call.None?;
    if thrown { return; }
    if db.settles[id].amount > 0 {
      settled' := MatchOrCancel(l0, db, id, price, max, settled, call.value);
    } else {
      CancelRound(l0, db, id, settled);
      RoundIsCancel(db.rules, p, id, price, max, call.value);
    }
  }

  method MatchOrCancel(ghost l0: Ledger, db: MarketDatabase, id: OrderId, price: Price, max: int, settled: int,
      call: OrderId)
      returns (settled': int)
    requires FairRules(db.rules) && Settling(l0, db.Contents(), id, settled)
    requires settled < max && id in db.settles && db.settles[id].amount > 0
    requires CanSettle(db.Contents(), call, id, price) && IsLeast(db.calls, db.settles[id].mia, call)
    modifies db`balances, db`fees, db`calls, db`supply, db`settles
    ensures RoundEnds(db.rules, l0, Point(old(db.Contents()), settled), Point(db.Contents(), settled'), id, price,
      max, false)
  {
    ghost var l := db.Contents();
    var r := db.MatchSettle(call, id, price, max - settled);
    MatchIsNotRefused(db.rules, l, db.Contents(), id, price, max - settled, call, r);
    ghost var l1 := db.Contents();
    settled' := if r.Settled? then settled + r.amount else settled;
    if r.BlackSwan? { CancelRound(l0, db, id, settled); }
    MatchEnds(db.rules, l0, Point(l, settled), l1, Point(db.Contents(), settled'), id, price, max, call, r);
  }

  /** After a match or, in a black swan, after the order is cancelled. */
  lemma MatchEnds(rules: map<AssetId, FeeRule>, l0: Ledger, p: Point, l1: Ledger, q: Point, id: OrderId,
                  price: Price, max: int, call: OrderId, r: SettleMatch)
    requires FairRules(rules) && Settling(l0, p.ledger, id, p.settled) && p.settled < max && id in p.ledger.settles
    requires p.ledger.settles[id].amount > 0 && CanSettle(p.ledger, call, id, price)
    requires IsLeast(p.ledger.calls, p.ledger.settles[id].mia, call)
    requires IsSettlement(rules, p.ledger, l1, call, id, price, max - p.settled, r) && r != Refused
    requires r.Settled? ==> q == Point(l1, p.settled + r.amount)
    requires r.BlackSwan? ==>
      && q == Point(CancelledSettle(p.ledger, id), p.settled)
      && Settling(l0, q.ledger, id, q.settled) && id !in q.ledger.settles
    ensures RoundEnds(rules, l0, p, q, id, price, max, false)
  {
    MatchIsRound(rules, p, l1, q, id, price, max, call, r);
    if r.Settled? { MatchAdvances(rules, l0, p, q, id, price, max, call, r.amount); }
    RoundIsOver(rules, l0, p, q, id, price, max);
  }

  lemma MatchAdvances(rules: map<AssetId, FeeRule>, l0: Ledger, p: Point, q: Point, id: OrderId, price: Price, max: int,
                      call: OrderId, n: nat)
    requires FairRules(rules) && Settling(l0, p.ledger, id, p.settled) && p.settled < max && id in p.ledger.settles
    requires CanSettle(p.ledger, call, id, price) && q.settled == p.settled + n
    requires IsSettlement(rules, p.ledger, q.ledger, call, id, price, max - p.settled, Settled(n))
    ensures Settling(l0, q.ledger, id, q.settled) && p.settled < q.settled <= max
  {
    var pays := SettlementPays(p.ledger, call, id, price, max - p.settled);
    FeeWithinAmount(rules, price.quoteId, pays);
    SettlingGoesOn(l0, p.ledger, id, p.settled, call, n, pays, MarketFee(rules, price.quoteId, pays));
  }

  lemma MatchIsRound(rules: map<AssetId, FeeRule>, p: Point, l1: Ledger, q: Point, id: OrderId, price: Price, max: int,
                     call: OrderId, r: SettleMatch)
    requires FairRules(rules) && CanSettle(p.ledger, call, id, price) && p.settled < max
    requires p.ledger.settles[id].amount > 0 && IsLeast(p.ledger.calls, p.ledger.settles[id].mia, call)
    requires IsSettlement(rules, p.ledger, l1, call, id, price, max - p.settled, r) && r != Refused
    requires r.Settled? ==> q == Point(l1, p.settled + r.amount)
    requires r.BlackSwan? ==> q == Point(CancelledSettle(p.ledger, id), p.settled)
    ensures IsRound(rules, p, q, id, price, max)
  {
    RoundIsMatch(rules, p, q, id, price, max, call, r);
  }

  lemma RoundIsOver(rules: map<AssetId, FeeRule>, l0: Ledger, p: Point, q: Point, id: OrderId, price: Price, max: int)
    requires id in l0.settles && p.settled <= q.settled <= max && Settling(l0, q.ledger, id, q.settled)
    requires q.settled > p.settled || id !in q.ledger.settles
    requires IsRound(rules, p, q, id, price, max)
    ensures RoundEnds(rules, l0, p, q, id, price, max, false)
  {
  }

  /** A listed position has collateral. */
  lemma MatchIsNotRefused(rules: map<AssetId, FeeRule>, l: Ledger, l': Ledger, id: OrderId, price: Price, max: nat,
                          call: OrderId, r: SettleMatch)
    requires FairRules(rules) && Backed(l) && CanSettle(l, call, id, price) && l.settles[id].amount > 0
    requires IsLeast(l.calls, l.settles[id].mia, call) && IsSettlement(rules, l, l', call, id, price, max, r)
    ensures r != Refused && (r == BlackSwan ==> l' == l)
  {
    CallOwes(l, call);
    ListedHasCollateral(l.calls[call]);
  }

  lemma CallOwes(l: Ledger, call: OrderId)
    requires Backed(l) && call in l.calls
    ensures l.calls[call].debt > 0
  {
    assert CallFits(l.bits, l.calls[call]);
  }

  /** The code's comment says that there should always be a position; there is one unless positions have lost their
      collateral. */
  method FindPosition(ghost l0: Ledger, db: MarketDatabase, id: OrderId, ghost price: Price, ghost max: int,
      ghost settled: int)
      returns (call: Option<OrderId>)
    requires Due(l0, id, price, max) && Settling(l0, db.Contents(), id, settled) && settled < max && id in db.settles
    ensures call.None? ==>
      IsStuck(Point(db.Contents(), settled), id, max) && !Collateralized(l0.calls, l0.settles[id].mia)
    ensures call.Some? ==> IsLeast(db.calls, db.settles[id].mia, call.value) && call.value in db.calls
    ensures call.Some? && db.settles[id].amount > 0 ==> CanSettle(db.Contents(), call.value, id, price)
  {
    PositionExists(l0, db.Contents(), id, price, max, settled);
    call := db.LeastCollateralized(db.settles[id].mia);
    if call.Some? { CanSettleWithLeast(l0, db.Contents(), id, price, max, settled, call.value); }
  }

  method CancelRound(ghost l0: Ledger, db: MarketDatabase, id: OrderId, ghost settled: int)
    requires Settling(l0, db.Contents(), id, settled) && id in db.settles
    modifies db`balances, db`settles
    ensures Settling(l0, db.Contents(), id, settled) && id !in db.settles
    ensures db.Contents() == CancelledSettle(old(db.Contents()), id)
  {
    SettlingIsCancelled(l0, db.Contents(), id, settled);
    db.CancelSettle(id);
  }
}
