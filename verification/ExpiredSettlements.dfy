/** The sweep over the settlement orders that have become due (libraries/chain/db_update.cpp:300-437). */
module ExpiredSettlements {
  import opened Common
  import opened Arithmetic
  import opened MapSums
  import opened Prices
  import opened Ledgers
  import opened Trading
  import opened Backings
  import opened MarketDatabases
  import opened ForcedSettlements

  type Settles = map<OrderId, SettleOrder>

  // ---------- the index by asset, date and id ----------

  predicate Earlier(s: SettleOrder, i: OrderId, t: SettleOrder, j: OrderId) {
    || s.mia < t.mia
    || (s.mia == t.mia && (s.date < t.date || (s.date == t.date && i < j)))
  }

  function From(settles: Settles, a: AssetId): set<OrderId> {
    set i | i in settles && settles[i].mia >= a
  }

  ghost predicate IsHead(settles: Settles, ids: set<OrderId>, head: OrderId)
    requires ids <= settles.Keys
  {
    head in ids && forall j :: j in ids && j != head ==> Earlier(settles[head], head, settles[j], j)
  }

  ghost predicate IsLowerBound(settles: Settles, a: AssetId, head: Option<OrderId>) {
    if head.Some? then IsHead(settles, From(settles, a), head.value) else From(settles, a) == {}
  }

  /** lower_bound(a); upper_bound(a) is lower_bound(a + 1). */
  method LowerBound(settles: Settles, a: AssetId) returns (head: Option<OrderId>)
    ensures IsLowerBound(settles, a, head)
  {
    var todo, seen := From(settles, a), {};
    head := None;
    while todo != {}
      invariant seen + todo == From(settles, a) && seen !! todo
      invariant if head.None? then seen == {} else IsHead(settles, seen, head.value)
    {
      var i :| i in todo;
      if head.None? || Earlier(settles[i], i, settles[head.value], head.value) { head := Some(i); }
      todo, seen := todo - {i}, seen + {i};
    }
  }

  // ---------- what a sweep keeps ----------

  /** Settling an asset moves supply into its settled volume, within the cap, and does nothing else to it. */
  ghost predicate Within(l0: Ledger, l: Ledger, a: AssetId) {
    && Outside(l, a) == Outside(l0, a)
    && (a in l.bits <==> a in l0.bits)
    && (a !in l.bits ==> GetInt(l.supply, a) == GetInt(l0.supply, a))
    && (a in l.bits ==>
          && l.bits[a] == l0.bits[a].(settledVolume := l.bits[a].settledVolume)
          && GetInt(l.supply, a) + l.bits[a].settledVolume == GetInt(l0.supply, a) + l0.bits[a].settledVolume
          && (l.bits[a].settledVolume <= l0.bits[a].settledVolume
              || l.bits[a].settledVolume <= Volume(l0.bits[a], GetInt(l0.supply, a))))
  }

  ghost predicate Smaller(before: Settles, now: Settles) {
    forall i :: i in now ==>
      i in before && now[i].amount <= before[i].amount && now[i] == before[i].(amount := now[i].amount)
  }

  /** The ledger of a sweep. */
  ghost predicate Swept(l0: Ledger, l: Ledger) {
    && Backed(l)
    && l == l0.(balances := l.balances, fees := l.fees, calls := l.calls, supply := l.supply, settles := l.settles,
      bits := l.bits)
    && Smaller(l0.settles, l.settles) && KeepsCollateral(l0.calls, l.calls)
    && forall a: AssetId :: Within(l0, l, a)
  }

  /** A sweep is thrown out of at an order that it has come to: everything before it is done, and it would be
      settled further, but is worth too much to be an amount, or no position can be found for it. */
  ghost predicate Throws(l: Ledger, head: OrderId, now: nat) {
    && Backed(l) && head in l.settles
    && var s := l.settles[head];
    && IsHead(l.settles, From(l.settles, s.mia), head) && DoneBelow(l, s.mia, now)
    && var b := l.bits[s.mia];
    && b.settlement.None? && s.date <= now && b.feed.Some? && b.settledVolume < Volume(b, GetInt(l.supply, s.mia))
    && (SettlementPrice(s, b).None? || ListedCalls(l.calls, s.mia) == {})
  }

  /** Where it throws, the volume of the settlement that it throws out of has not been updated yet. */
  ghost predicate ThrownAt(l: Ledger, reached: Ledger, head: OrderId, now: nat) {
    && Throws(reached, head, now)
    && var mia := reached.settles[head].mia;
    && mia in l.bits && l == WithVolume(reached, mia, l.bits[mia].settledVolume)
  }

  /** A condition on the ledger before the sweep: every order that is due is worth an amount, and its asset's
      positions have collateral. */
  ghost predicate Untroubled(l: Ledger, now: nat)
    requires Backed(l)
  {
    forall i :: i in l.settles && l.settles[i].date <= now ==> Payable(l, i)
  }

  ghost predicate Payable(l: Ledger, i: OrderId)
    requires i in l.settles && l.settles[i].mia in l.bits
  {
    var s := l.settles[i];
    var b := l.bits[s.mia];
    b.settlement.None? && b.feed.Some? ==>
      Times(s.amount, s.mia, b.feed.value).Some? && Collateralized(l.calls, s.mia)
  }

  /** Orders only shrink, feeds stay and no position loses its last collateral. */
  lemma StaysPayable(l0: Ledger, l: Ledger, i: OrderId)
    requires Backed(l0) && Swept(l0, l) && i in l.settles && Payable(l0, i)
    ensures Payable(l, i)
  {
    var s0, s := l0.settles[i], l.settles[i];
    assert Within(l0, l, s.mia) && BitFits(s.mia, l0.bits[s.mia]);
    if l0.bits[s.mia].feed.Some? {
      var p := l0.bits[s.mia].feed.value;
      TimesGrows(s.amount, s0.amount, p.quote, p.base);
    }
  }

  /** So a sweep of an untroubled ledger is never thrown out of. */
  lemma UntroubledNeverThrows(l0: Ledger, l: Ledger, now: nat, head: OrderId)
    requires Backed(l0) && Swept(l0, l) && Untroubled(l0, now)
    ensures !Throws(l, head, now)
  {
    if Throws(l, head, now) {
      assert l.settles[head].date == l0.settles[head].date;
      StaysPayable(l0, l, head);
      BelowCapIsFound(l, l.settles[head].mia);
    }
  }

  /** Where every position has collateral, an asset below its cap has one that the lookup finds. */
  lemma BelowCapIsFound(l: Ledger, mia: AssetId)
    requires Backed(l) && mia in l.bits && l.bits[mia].settlement.None? && Collateralized(l.calls, mia)
    requires l.bits[mia].settledVolume < Volume(l.bits[mia], GetInt(l.supply, mia))
    ensures ListedCalls(l.calls, mia) != {}
  {
    assert BitFits(mia, l.bits[mia]);
    SuppliedIsOwed(l, mia);
    BelowCapIsSupplied(l.bits[mia], GetInt(l.supply, mia));
    var i :| i in l.calls && l.calls[i].mia == mia;
    CallOwes(l, i);
    ListedHasCollateral(l.calls[i]);
    assert i in ListedCalls(l.calls, mia);
  }

  /** Where everything may stay, nothing throws. */
  lemma DoneDoesNotThrow(l: Ledger, now: nat, head: OrderId)
    requires Backed(l) && NothingIsLeft(l, now)
    ensures !Throws(l, head, now)
  {
  }

  /** The only orders a sweep may leave: not yet due, or of an asset whose cap is reached. */
  ghost predicate MayStay(l: Ledger, i: OrderId, now: nat)
    requires i in l.settles && l.settles[i].mia in l.bits
  {
    var s := l.settles[i];
    var b := l.bits[s.mia];
    && b.settlement.None?
    && (s.date > now || (b.feed.Some? && b.settledVolume >= Volume(b, GetInt(l.supply, s.mia))))
  }

  ghost predicate DoneBelow(l: Ledger, current: AssetId, now: nat)
    requires Backed(l)
  {
    forall i :: i in l.settles && l.settles[i].mia < current ==> MayStay(l, i, now)
  }

  lemma VolumesStay(l0: Ledger, l: Ledger, a: AssetId)
    requires Within(l0, l, a) && a in l.bits
    ensures Volume(l.bits[a], GetInt(l.supply, a)) == Volume(l0.bits[a], GetInt(l0.supply, a))
  {
  }

  lemma SweptFurther(l0: Ledger, l1: Ledger, l2: Ledger)
    requires Swept(l0, l1) && Swept(l1, l2)
    ensures Swept(l0, l2)
  {
    forall a: AssetId ensures Within(l0, l2, a) {
      assert Within(l0, l1, a) && Within(l1, l2, a);
      if a in l1.bits { VolumesStay(l0, l1, a); }
    }
  }

  // ---------- single steps of a sweep ----------

  lemma CancelSweeps(l: Ledger, id: OrderId)
    requires Backed(l) && id in l.settles
    ensures Swept(l, CancelledSettle(l, id))
  {
    CancelledSettleKeepsBacked(l, id);
    var l' := CancelledSettle(l, id);
    forall a: AssetId ensures Within(l, l', a) { assert Moved(l, l', a, l.settles[id].mia); }
  }

  function WithVolume(l: Ledger, a: AssetId, settled: nat): Ledger
    requires a in l.bits
  {
    l.(bits := l.bits[a := l.bits[a].(settledVolume := settled)])
  }

  lemma VolumeKeepsBacked(l: Ledger, a: AssetId, settled: nat)
    requires Backed(l) && a in l.bits
    ensures Backed(WithVolume(l, a, settled))
    ensures forall x: AssetId :: Held(WithVolume(l, a, settled), x) == Held(l, x)
  {
    assert BitFits(a, l.bits[a]);
    RevisionKeepsBacked(l, a, l.bits[a].(settledVolume := settled));
  }

  /** An order settled as far as its asset's cap allows. */
  lemma SettlingSweeps(l: Ledger, l1: Ledger, id: OrderId, price: Price, max: int, settled: int)
    requires Due(l, id, price, max) && Settling(l, l1, id, settled) && settled <= max
    ensures Swept(l, WithVolume(l1, l.settles[id].mia, settled))
  {
    var mia := l.settles[id].mia;
    var l' := WithVolume(l1, mia, settled);
    VolumeKeepsBacked(l1, mia, settled);
    forall a: AssetId ensures Within(l, l', a) {
      assert Moved(l, l1, a, mia);
      assert Held(l', a) == Held(l1, a);
    }
  }

  /** Only one order and its asset have changed. */
  ghost predicate OnlyFor(l: Ledger, l': Ledger, id: OrderId)
    requires id in l.settles
  {
    && (forall a: AssetId :: a != l.settles[id].mia ==> SameAsset(l, l', a))
    && forall i :: i in l'.settles && i != id ==> i in l.settles && l'.settles[i] == l.settles[i]
  }

  ghost predicate SameAsset(l: Ledger, l': Ledger, a: AssetId) {
    && (a in l.bits <==> a in l'.bits) && (a in l.bits ==> l'.bits[a] == l.bits[a])
    && GetInt(l'.supply, a) == GetInt(l.supply, a)
  }

  lemma DoneStays(l: Ledger, l': Ledger, id: OrderId, current: AssetId, now: nat)
    requires Backed(l) && Backed(l') && id in l.settles && l.settles[id].mia >= current && OnlyFor(l, l', id)
    requires Smaller(l.settles, l'.settles) && DoneBelow(l, current, now)
    ensures DoneBelow(l', current, now)
  {
    forall i | i in l'.settles && l'.settles[i].mia < current ensures MayStay(l', i, now) {
      assert MayStay(l, i, now) && SameAsset(l, l', l'.settles[i].mia);
    }
  }

  /** When the first order of an asset may stay, all the asset's orders may. */
  lemma RestMayStay(l: Ledger, head: OrderId, current: AssetId, now: nat)
    requires Backed(l) && IsHead(l.settles, From(l.settles, current), head) && DoneBelow(l, current, now)
    requires MayStay(l, head, now)
    ensures DoneBelow(l, l.settles[head].mia + 1, now)
  {
    forall i | i in l.settles && l.settles[i].mia <= l.settles[head].mia ensures MayStay(l, i, now) {
      if l.settles[i].mia >= current && i != head { assert i in From(l.settles, current); }
    }
  }

  // ---------- why a sweep ends ----------

  ghost function AmountOf(): (OrderId, SettleOrder) -> int {
    (i: OrderId, s: SettleOrder) => s.amount
  }

  /** Everything still to be settled. */
  ghost function StillToSettle(settles: Settles): (n: nat)
  {
    SumNonNegative(settles, AmountOf());
    Sum(settles, AmountOf())
  }

  /** A pass removes an order, settles part of one, or moves to a later asset. */
  ghost predicate Advances(before: Settles, current: AssetId, now: Settles, current': AssetId) {
    || Shortens(before, now)
    || (now == before && |From(now, current')| < |From(before, current)|)
  }

  lemma RemovalAdvances(before: Settles, id: OrderId)
    requires id in before
    ensures |before - {id}| < |before|
  {
    assert before == (before - {id})[id := before[id]];
  }

  lemma PartAdvances(before: Settles, id: OrderId, done: nat)
    requires id in before && 0 < done <= before[id].amount
    ensures var now := before[id := before[id].(amount := before[id].amount - done)];
      |now| == |before| && StillToSettle(now) < StillToSettle(before)
  {
    var s := before[id].(amount := before[id].amount - done);
    SumUpdate(before, id, s, AmountOf());
    assert before[id := s].Keys == before.Keys;
    assert |before[id := s]| == |before[id := s].Keys| && |before| == |before.Keys|;
  }

  lemma LaterAdvances(settles: Settles, current: AssetId, current': AssetId, head: OrderId)
    requires head in settles && current <= settles[head].mia < current'
    ensures |From(settles, current')| < |From(settles, current)|
  {
    assert From(settles, current') <= From(settles, current) - {head};
    SubsetIsNotLarger(From(settles, current'), From(settles, current) - {head});
  }

  // ---------- the sweep ----------

  /** The cap last computed; no asset has the core asset's id. */
  ghost predicate CapIs(l: Ledger, capFor: AssetId, cap: int) {
    capFor in l.bits ==> cap == Volume(l.bits[capFor], GetInt(l.supply, capFor))
  }

  ghost predicate Sweeping(l0: Ledger, l: Ledger, now: nat, current: AssetId, capFor: AssetId, cap: int) {
    Swept(l0, l) && DoneBelow(l, current, now) && CapIs(l0, capFor, cap)
  }

  /** The amount at the feed price, less the offset; None when the price makes it exceed every supply. */
  function SettlementPrice(s: SettleOrder, b: BitAsset): (p: Option<Price>)
    requires b.feed.Some? && b.offsetPercent <= HUNDRED_PERCENT
    ensures p.Some? <==> Times(s.amount, s.mia, b.feed.value).Some?
    ensures p.Some? ==>
      && p.value.base == s.amount && p.value.baseId == s.mia && p.value.quoteId == b.backing
      && p.value.quote <= MAX_SHARE_SUPPLY
    ensures p.Some? ==>
      var worth := Times(s.amount, s.mia, b.feed.value).value;
      p.value.quote * HUNDRED_PERCENT <= worth * (HUNDRED_PERCENT - b.offsetPercent)
        < (p.value.quote + 1) * HUNDRED_PERCENT
  {
    var full := Times(s.amount, s.mia, b.feed.value);
    if full.None? then None
    else
      var receives := full.value * (HUNDRED_PERCENT - b.offsetPercent) / HUNDRED_PERCENT;
      LessThanWhole(full.value, b.offsetPercent);
      DivIsLargest(full.value * (HUNDRED_PERCENT - b.offsetPercent), HUNDRED_PERCENT, 0);
      Some(Price(s.amount, s.mia, receives, b.backing))
  }

  lemma LessThanWhole(n: nat, offset: nat)
    requires offset <= HUNDRED_PERCENT
    ensures 0 <= n * (HUNDRED_PERCENT - offset) / HUNDRED_PERCENT <= n
  {
    MulMono2(n, n, HUNDRED_PERCENT - offset, HUNDRED_PERCENT);
    DivMono(n * (HUNDRED_PERCENT - offset), n * HUNDRED_PERCENT, HUNDRED_PERCENT);
    DivUnique(n * HUNDRED_PERCENT, HUNDRED_PERCENT, n, 0);
  }

  /** What a pass does to the first order of an asset: cancels it when the asset was globally settled or has no feed,
      otherwise, once it is due, settles it at the feed price less the offset as far as the cap allows. */
  ghost predicate IsPass(rules: map<AssetId, FeeRule>, l: Ledger, l': Ledger, now: nat) {
    exists head :: IsPassAt(rules, l, l', head, now)
  }

  ghost predicate IsPassAt(rules: map<AssetId, FeeRule>, l: Ledger, l': Ledger, head: OrderId, now: nat) {
    && Backed(l) && head in l.settles
    && var s := l.settles[head];
    && IsHead(l.settles, From(l.settles, s.mia), head)
    && var b := l.bits[s.mia];
    if b.settlement.Some? then l' == CancelledSettle(l, head)
    else
      && s.date <= now
      && if b.feed.None? then l' == CancelledSettle(l, head)
         else
           && b.settledVolume < Volume(b, GetInt(l.supply, s.mia)) && SettlementPrice(s, b).Some?
           && IsSettledTo(rules, l, l', head, SettlementPrice(s, b).value, Volume(b, GetInt(l.supply, s.mia)))
  }

  ghost predicate IsSettledTo(rules: map<AssetId, FeeRule>, l: Ledger, l': Ledger, head: OrderId, price: Price,
      cap: int)
    requires Backed(l) && head in l.settles
  {
    exists path :: IsSettledAlong(rules, l, l', head, price, cap, path)
  }

  /** The rounds of an order's settlement go on until it is gone, the cap is reached or no position can be found, and
      the volume is updated. */
  ghost predicate IsSettledAlong(rules: map<AssetId, FeeRule>, l: Ledger, l': Ledger, head: OrderId, price: Price,
      cap: int, path: seq<Point>)
    requires Backed(l) && head in l.settles
  {
    && IsSettling(rules, path, head, price, cap)
    && var mia, last := l.settles[head].mia, path[|path| - 1];
    && path[0] == Point(l, l.bits[mia].settledVolume)
    && (head in last.ledger.settles ==> last.settled == cap || ListedCalls(last.ledger.calls, mia) == {})
    && mia in last.ledger.bits && last.settled >= 0
    && l' == WithVolume(last.ledger, mia, last.settled)
  }

  /** A whole sweep from one ledger to another: passes, or moving on to another asset. */
  ghost predicate IsSweep(rules: map<AssetId, FeeRule>, trace: seq<Ledger>, from: Ledger, to: Ledger, now: nat) {
    && |trace| > 0 && trace[0] == from && trace[|trace| - 1] == to
    && forall k: nat :: k < |trace| - 1 ==> MovesOn(rules, trace[k], trace[k + 1], now)
  }

  ghost predicate MovesOn(rules: map<AssetId, FeeRule>, l: Ledger, l': Ledger, now: nat) {
    l' == l || IsPass(rules, l, l', now)
  }

  lemma OneMorePass(rules: map<AssetId, FeeRule>, trace: seq<Ledger>, from: Ledger, to: Ledger, l: Ledger, now: nat)
    requires IsSweep(rules, trace, from, to, now) && MovesOn(rules, to, l, now)
    ensures IsSweep(rules, trace + [l], from, l, now)
  {
    forall k: nat | k < |trace| ensures MovesOn(rules, (trace + [l])[k], (trace + [l])[k + 1], now) {
      if k < |trace| - 1 { assert MovesOn(rules, trace[k], trace[k + 1], now); }
    }
  }

  /** Cancels an order of an asset that was globally settled or has no feed. */
  method CancelPass(ghost l0: Ledger, db: MarketDatabase, now: nat, ghost current: AssetId, head: OrderId,
      ghost capFor: AssetId, ghost cap: int)
    requires Sweeping(l0, db.Contents(), now, current, capFor, cap)
    requires head in db.settles && db.settles[head].mia >= current
    modifies db`balances, db`settles
    ensures Sweeping(l0, db.Contents(), now, current, capFor, cap)
    ensures |db.settles| < |old(db.settles)|
    ensures db.Contents() == CancelledSettle(old(db.Contents()), head)
  {
    ghost var l := db.Contents();
    CancelSweeps(l, head);
    RemovalAdvances(db.settles, head);
    SweptFurther(l0, l, CancelledSettle(l, head));
    DoneStays(l, CancelledSettle(l, head), head, current, now);
    db.CancelSettle(head);
  }

  /** Settles an order as far as the cap allows, and as far as positions are found. */
  method SettlePass(ghost l0: Ledger, db: MarketDatabase, now: nat, ghost current: AssetId, head: OrderId, price: Price,
      ghost capFor: AssetId, cap: int) returns (thrown: bool, ghost reached: Ledger)
    requires FairRules(db.rules) && Sweeping(l0, db.Contents(), now, current, capFor, cap)
    requires Due(db.Contents(), head, price, cap) && IsDueHead(db.Contents(), head, now)
    requires db.settles[head].mia == current
    modifies db`balances, db`fees, db`calls, db`supply, db`settles, db`bits
    ensures Sweeping(l0, reached, now, current, capFor, cap)
    ensures IsSettledTo(db.rules, old(db.Contents()), reached, head, price, cap)
    ensures if thrown then ThrownAt(db.Contents(), reached, head, now)
      else db.Contents() == reached && Shortens(old(db.settles), db.settles)
  {
    ghost var l := db.Contents();
    var mia := db.settles[head].mia;
    var settled;
    ghost var path;
    thrown, settled, path := SettleUpToCap(db, head, price, cap);
    ghost var l1 := db.Contents();
    reached := WithVolume(l1, mia, settled);
    assert IsSettledAlong(db.rules, l, reached, head, price, cap, path);
    SettlementSweeps(l0, l, l1, now, current, head, price, capFor, cap, settled);
    if thrown {
      StuckThrows(l, l1, head, price, cap, settled, now);
      return;
    }
    if db.bits[mia].settledVolume != settled {
      db.bits := db.bits[mia := db.bits[mia].(settledVolume := settled)];
    }
    assert db.Contents() == reached by { assert l1.bits[mia := l1.bits[mia]] == l1.bits; }
    SettlementShortens(l, l1, head, price, cap, settled);
  }

  /** The first order of its asset, which is due. */
  ghost predicate IsDueHead(l: Ledger, head: OrderId, now: nat) {
    && head in l.settles && IsHead(l.settles, From(l.settles, l.settles[head].mia), head) && l.settles[head].date <= now
    && l.settles[head].mia in l.bits && l.bits[l.settles[head].mia].feed.Some?
  }

  lemma StuckThrows(l: Ledger, l1: Ledger, head: OrderId, price: Price, cap: int, settled: nat, now: nat)
    requires Due(l, head, price, cap) && IsDueHead(l, head, now)
    requires Settling(l, l1, head, settled) && IsStuck(Point(l1, settled), head, cap)
    requires var reached := WithVolume(l1, l.settles[head].mia, settled);
      Backed(reached) && DoneBelow(reached, l.settles[head].mia, now)
    ensures ThrownAt(l1, WithVolume(l1, l.settles[head].mia, settled), head, now)
  {
    var mia := l.settles[head].mia;
    CapStays(l.bits[mia], GetInt(l.supply, mia), settled);
    assert l1.bits[mia := l1.bits[mia]] == l1.bits;
    HeadStays(l.settles, l1.settles, head);
  }

  /** A smaller amount leaves the first order of an asset the first. */
  lemma HeadStays(before: Settles, now: Settles, head: OrderId)
    requires head in before && IsHead(before, From(before, before[head].mia), head)
    requires head in now && now == before[head := before[head].(amount := now[head].amount)]
    ensures IsHead(now, From(now, now[head].mia), head)
  {
    forall j | j in From(now, now[head].mia) && j != head ensures Earlier(now[head], head, now[j], j) {
      assert j in From(before, before[head].mia);
    }
  }

  /** An order is gone, or one is smaller. */
  ghost predicate Shortens(before: Settles, now: Settles) {
    |now| < |before| || (|now| == |before| && StillToSettle(now) < StillToSettle(before))
  }

  lemma SettlementSweeps(l0: Ledger, l: Ledger, l1: Ledger, now: nat, current: AssetId, head: OrderId, price: Price,
      capFor: AssetId, cap: int, settled: nat)
    requires Sweeping(l0, l, now, current, capFor, cap) && Due(l, head, price, cap) && l.settles[head].mia >= current
    requires Settling(l, l1, head, settled) && settled <= cap
    ensures Sweeping(l0, WithVolume(l1, l.settles[head].mia, settled), now, current, capFor, cap)
  {
    var mia := l.settles[head].mia;
    var l' := WithVolume(l1, mia, settled);
    SettlingSweeps(l, l1, head, price, cap, settled);
    SweptFurther(l0, l, l');
    forall a: AssetId | a != mia ensures SameAsset(l, l', a) { assert Moved(l, l1, a, mia); }
    DoneStays(l, l', head, current, now);
  }

  lemma SettlementShortens(l: Ledger, l1: Ledger, head: OrderId, price: Price, cap: int, settled: nat)
    requires Due(l, head, price, cap) && Settling(l, l1, head, settled) && (head in l1.settles ==> settled == cap)
    ensures Shortens(l.settles, l1.settles)
  {
    if head in l1.settles {
      PartAdvances(l.settles, head, settled - l.bits[l.settles[head].mia].settledVolume);
    } else {
      RemovalAdvances(l.settles, head);
    }
  }

  lemma SweepStarts(l: Ledger, now: nat)
    requires Backed(l)
    ensures Sweeping(l, l, now, 0, CORE, 0)
  {
    forall a: AssetId ensures Within(l, l, a) {
      if a in l.bits { assert l.bits[a] == l.bits[a].(settledVolume := l.bits[a].settledVolume); }
    }
    assert BitsAreNotCore(l);
  }

  ghost predicate BitsAreNotCore(l: Ledger) {
    CORE !in l.bits
  }

  /** No order lies between the asset a sweep has come to and the first order from there. */
  lemma SkipGap(l: Ledger, now: nat, current: AssetId, head: OrderId)
    requires Backed(l) && DoneBelow(l, current, now) && IsHead(l.settles, From(l.settles, current), head)
    ensures DoneBelow(l, l.settles[head].mia, now)
    ensures From(l.settles, l.settles[head].mia) == From(l.settles, current)
  {
    forall i | i in l.settles && l.settles[i].mia < l.settles[head].mia ensures l.settles[i].mia < current {
      assert i !in From(l.settles, current);
    }
  }

  datatype Progress = Going | Finished | Thrown

  /** clear_expired_orders, for settlement orders. A sweep is thrown out of exactly when it has come to an order
      that throws, never when the ledger before was untroubled; otherwise it ends with nothing left but orders that
      may stay. */
  method ClearExpiredSettlements(db: MarketDatabase, now: nat)
      returns (thrown: bool, ghost reached: Ledger, ghost trace: seq<Ledger>)
    requires FairRules(db.rules) && Backed(db.Contents())
    modifies db`balances, db`fees, db`calls, db`supply, db`settles, db`bits
    ensures Swept(old(db.Contents()), reached) && IsSweep(db.rules, trace, old(db.Contents()), reached, now)
    ensures thrown <==> exists head :: Throws(reached, head, now)
    ensures if thrown then exists head :: ThrownAt(db.Contents(), reached, head, now) else db.Contents() == reached
    ensures Untroubled(old(db.Contents()), now) ==> !thrown
    ensures !thrown ==> NothingIsLeft(reached, now)
  {
    ghost var l0 := db.Contents();
    thrown, reached, trace := PassAfterPass(db, now);
    SweepConcludes(l0, reached, now, thrown);
  }

  method PassAfterPass(db: MarketDatabase, now: nat)
      returns (thrown: bool, ghost reached: Ledger, ghost trace: seq<Ledger>)
    requires FairRules(db.rules) && Backed(db.Contents())
    modifies db`balances, db`fees, db`calls, db`supply, db`settles, db`bits
    ensures SweepEnds(db.rules, old(db.Contents()), db.Contents(), reached, trace, now, thrown)
  {
    ghost var l0 := db.Contents();
    SweepStarts(l0, now);
    trace, reached := [l0], l0;
    var current, capFor, cap := 0, CORE, 0;
    var head := LowerBound(db.settles, current);
    while head.Some?
      invariant db.Contents() == reached && Sweeping(l0, reached, now, current, capFor, cap)
      invariant SweepGoesOn(db.rules, l0, reached, trace, now, current, head)
      decreases |db.settles|, StillToSettle(db.settles), |From(db.settles, current)|
    {
      var progress;
      current, capFor, cap, progress, head, reached, trace :=
        PassAndLook(l0, trace, db, now, current, head.value, capFor, cap);
      if progress != Going { return progress == Thrown, reached, trace; }
    }
    thrown := false;
    NoHeadLeft(reached, current, now);
  }

  ghost predicate SweepGoesOn(
      rules: map<AssetId, FeeRule>, l0: Ledger, l: Ledger, trace: seq<Ledger>, now: nat, current: AssetId,
      head: Option<OrderId>)
  {
    IsSweep(rules, trace, l0, l, now) && IsLowerBound(l.settles, current, head)
  }

  /** One pass, and the first order from the asset it has come to. */
  method PassAndLook(ghost l0: Ledger, ghost trace: seq<Ledger>, db: MarketDatabase, now: nat, before: AssetId,
      order: OrderId, capFor: AssetId, cap: int)
      returns (current: AssetId, capFor': AssetId, cap': int, progress: Progress, head: Option<OrderId>,
        ghost reached: Ledger, ghost trace': seq<Ledger>)
    requires FairRules(db.rules) && Sweeping(l0, db.Contents(), now, before, capFor, cap)
    requires SweepGoesOn(db.rules, l0, db.Contents(), trace, now, before, Some(order))
    modifies db`balances, db`fees, db`calls, db`supply, db`settles, db`bits
    ensures progress == Going ==>
      && db.Contents() == reached && Sweeping(l0, reached, now, current, capFor', cap')
      && SweepGoesOn(db.rules, l0, reached, trace', now, current, head)
      && Advances(old(db.settles), before, db.settles, current)
    ensures progress != Going ==> SweepEnds(db.rules, l0, db.Contents(), reached, trace', now, progress == Thrown)
  {
    ghost var l := db.Contents();
    current, capFor', cap', progress, reached := SweepPass(l0, db, now, before, order, capFor, cap);
    OneMorePass(db.rules, trace, l0, l, reached, now);
    trace' := trace + [reached];
    head := LowerBound(db.settles, current);
  }

  ghost predicate SweepEnds(
      rules: map<AssetId, FeeRule>, l0: Ledger, l: Ledger, reached: Ledger, trace: seq<Ledger>, now: nat, thrown: bool)
  {
    && Swept(l0, reached) && IsSweep(rules, trace, l0, reached, now)
    && if thrown then exists head :: ThrownAt(l, reached, head, now) else l == reached && NothingIsLeft(reached, now)
  }

  /** Every order that is left may stay. */
  ghost predicate NothingIsLeft(l: Ledger, now: nat)
    requires Backed(l)
  {
    forall i :: i in l.settles ==> MayStay(l, i, now)
  }

  lemma NoHeadLeft(l: Ledger, current: AssetId, now: nat)
    requires Backed(l) && DoneBelow(l, current, now) && From(l.settles, current) == {}
    ensures NothingIsLeft(l, now)
  {
    forall i | i in l.settles ensures MayStay(l, i, now) { assert i !in From(l.settles, current); }
  }

  lemma SweepConcludes(l0: Ledger, l: Ledger, now: nat, thrown: bool)
    requires Backed(l0) && Swept(l0, l)
    requires if thrown then exists head :: Throws(l, head, now) else NothingIsLeft(l, now)
    ensures thrown <==> exists head :: Throws(l, head, now)
    ensures Untroubled(l0, now) ==> !thrown
  {
    if thrown {
      var head :| Throws(l, head, now);
      if Untroubled(l0, now) { UntroubledNeverThrows(l0, l, now, head); }
    } else {
      forall i ensures !Throws(l, i, now) { DoneDoesNotThrow(l, now, i); }
    }
  }

  /** How a pass ends: having advanced, with nothing left but orders that may stay, or thrown out of at its order. */
  ghost predicate PassEnds(
      progress: Progress, before: Settles, current: AssetId, l: Ledger, reached: Ledger, current': AssetId,
      head: OrderId, now: nat)
    requires Backed(reached)
  {
    match progress
    case Going => l == reached && Advances(before, current, l.settles, current')
    case Finished => l == reached && NothingIsLeft(reached, now)
    case Thrown => ThrownAt(l, reached, head, now)
  }

  /** One pass cancels the first order, settles it, or moves to the next asset. */
  method SweepPass(ghost l0: Ledger, db: MarketDatabase, now: nat, ghost before: AssetId, head: OrderId,
      capFor: AssetId, cap: int)
      returns (current: AssetId, capFor': AssetId, cap': int, progress: Progress, ghost reached: Ledger)
    requires FairRules(db.rules) && Sweeping(l0, db.Contents(), now, before, capFor, cap)
    requires IsHead(db.settles, From(db.settles, before), head)
    modifies db`balances, db`fees, db`calls, db`supply, db`settles, db`bits
    ensures Sweeping(l0, reached, now, current, capFor', cap')
    ensures PassEnds(progress, old(db.settles), before, db.Contents(), reached, current, head, now)
    ensures MovesOn(db.rules, old(db.Contents()), reached, now)
  {
    ghost var l := db.Contents();
    SkipGap(l, now, before, head);
    capFor', cap', progress := capFor, cap, Going;
    var order := db.settles[head];
    current := order.mia;
    var b := db.bits[current];
    if b.settlement.Some? {
      CancelPass(l0, db, now, current, head, capFor, cap);
      assert IsPassAt(db.rules, l, db.Contents(), head, now);
      reached := db.Contents();
      return;
    }
    if order.date > now {
      current, progress := NextAsset(l0, db, now, current, head, capFor, cap);
      reached := db.Contents();
      return;
    }
    if b.feed.None? {
      CancelPass(l0, db, now, current, head, capFor, cap);
      assert IsPassAt(db.rules, l, db.Contents(), head, now);
      reached := db.Contents();
      return;
    }
    CapHolds(l0, l, current);
    if capFor != current { capFor', cap' := current, Volume(b, GetInt(db.supply, current)); }
    current, progress, reached := SettleOrMoveOn(l0, db, now, current, head, capFor', cap');
  }

  method SettleOrMoveOn(ghost l0: Ledger, db: MarketDatabase, now: nat, before: AssetId, head: OrderId,
      ghost capFor: AssetId, cap: int)
      returns (current: AssetId, progress: Progress, ghost reached: Ledger)
    requires FairRules(db.rules) && Sweeping(l0, db.Contents(), now, before, capFor, cap)
    requires IsHead(db.settles, From(db.settles, before), head) && db.settles[head].mia == before && capFor == before
    requires var b := db.bits[before]; b.settlement.None? && b.feed.Some? && db.settles[head].date <= now
    modifies db`balances, db`fees, db`calls, db`supply, db`settles, db`bits
    ensures Sweeping(l0, reached, now, current, capFor, cap)
    ensures PassEnds(progress, old(db.settles), before, db.Contents(), reached, current, head, now)
    ensures MovesOn(db.rules, old(db.Contents()), reached, now)
  {
    ghost var l := db.Contents();
    CapIsVolume(l0, l, before, cap);
    current, progress, reached := before, Going, l;
    if db.bits[before].settledVolume >= cap {
      current, progress := NextAsset(l0, db, now, before, head, capFor, cap);
      return;
    }
    var price := SettlementPrice(db.settles[head], db.bits[before]);
    if price.None? {
      progress := Thrown;
      assert l.bits[before := l.bits[before]] == l.bits;
      assert Throws(l, head, now);
      return;
    }
    var thrown;
    thrown, reached := SettlePass(l0, db, now, before, head, price.value, capFor, cap);
    if thrown { progress := Thrown; }
    assert IsPassAt(db.rules, l, reached, head, now);
  }

  lemma CapIsVolume(l0: Ledger, l: Ledger, a: AssetId, cap: int)
    requires Swept(l0, l) && a in l.bits && CapIs(l0, a, cap)
    ensures cap == Volume(l.bits[a], GetInt(l.supply, a))
  {
    assert Within(l0, l, a);
    VolumesStay(l0, l, a);
  }

  /** The cap can be computed at any time of a sweep. */
  lemma CapHolds(l0: Ledger, l: Ledger, a: AssetId)
    requires Swept(l0, l) && a in l.bits
    ensures CapIs(l0, a, Volume(l.bits[a], GetInt(l.supply, a)))
  {
    assert Within(l0, l, a);
    VolumesStay(l0, l, a);
  }

  method NextAsset(ghost l0: Ledger, db: MarketDatabase, now: nat, before: AssetId, head: OrderId,
      ghost capFor: AssetId, ghost cap: int)
      returns (current: AssetId, progress: Progress)
    requires Sweeping(l0, db.Contents(), now, before, capFor, cap)
    requires IsHead(db.settles, From(db.settles, before), head) && db.settles[head].mia == before
    requires MayStay(db.Contents(), head, now)
    ensures Sweeping(l0, db.Contents(), now, current, capFor, cap) && progress in {Going, Finished}
    ensures progress == Going ==> Advances(db.settles, before, db.settles, current)
    ensures progress == Finished ==> forall i :: i in db.settles ==> MayStay(db.Contents(), i, now)
  {
    ghost var l := db.Contents();
    RestMayStay(l, head, before, now);
    var next := LowerBound(db.settles, before + 1);
    if next.None? {
      forall i | i in db.settles ensures MayStay(l, i, now) { assert i !in From(db.settles, before + 1); }
      return before, Finished;
    }
    SkipGap(l, now, before + 1, next.value);
    current, progress := db.settles[next.value].mia, Going;
    LaterAdvances(db.settles, before, current, head);
  }
}
