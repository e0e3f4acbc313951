/**
 * Creating and cancelling limit orders between assets that are not market-issued
 * (libraries/chain/market_evaluator.cpp:36-126), and what every run of them keeps.
 */
module LimitMarkets {
  import opened Common
  import opened Arithmetic
  import opened Prices
  import opened Ledgers
  import opened Trading
  import opened OrderBooks
  import opened MarketDatabases

  /** The fee is in the core asset. */
  datatype NewOrder = NewOrder(
    seller: AccountId, sell: nat, sellId: AssetId, receive: nat, receiveId: AssetId, fee: nat, fillOrKill: bool)

  /** No asset exceeds the greatest possible supply. */
  ghost predicate Bounded(l: Ledger) {
    forall a: AssetId :: Held(l, a) <= MAX_SHARE_SUPPLY
  }

  /** What every operation keeps: nothing crosses, nothing is too small to be sold, and new ids are unused. */
  ghost predicate InOrder(l: Ledger, nextId: OrderId) {
    Resting(l.limits) && Bounded(l) && forall i :: i in l.limits ==> i < nextId
  }

  function OrderOf(op: NewOrder): LimitOrder {
    LimitOrder(op.seller, op.sell, Price(op.sell, op.sellId, op.receive, op.receiveId), op.fee)
  }

  ghost predicate Valid(op: NewOrder) {
    op.sellId != op.receiveId && op.sell > 0 && op.receive > 0
  }

  /** The ledger when matching starts: the amount has moved from the balance to the new order. */
  ghost function Entered(l: Ledger, id: OrderId, op: NewOrder): Ledger
    requires CanDebit(l, op.seller, op.sellId, op.sell)
  {
    Debit(l, op.seller, op.sellId, op.sell).(limits := l.limits[id := OrderOf(op)])
  }

  /** What is asked for must be an amount that can exist. */
  ghost predicate CanEnter(l: Ledger, op: NewOrder) {
    Valid(op) && CanDebit(l, op.seller, op.sellId, op.sell) && op.receive <= MAX_SHARE_SUPPLY
  }

  lemma EnteredKeeps(l: Ledger, id: OrderId, op: NewOrder)
    requires InOrder(l, id) && CanEnter(l, op)
    ensures var l' := Entered(l, id, op);
      && AllSound(l'.limits) && RestingBut(l'.limits, id)
      && forall a: AssetId :: Held(l', a) == Held(l, a) + if a == CORE then op.fee else 0
    ensures Times(op.sell, op.sellId, OrderOf(op).price) == Some(op.receive)
  {
    var o := OrderOf(op);
    DivUnique(op.sell * op.receive, op.sell, op.receive, 0);
    PartsWithinHeld(l, op.sellId);
    assert op.sell <= Get(l.balances, BalanceKey(op.seller, op.sellId)) <= MAX_SHARE_SUPPLY;
    forall a: AssetId ensures Held(Entered(l, id, op), a) == Held(l, a) + if a == CORE then op.fee else 0 {
      EnteredHolds(l, id, op, a);
    }
  }

  /** The amount moves from the balance to the order; the deferred fee is counted before it is charged. */
  lemma EnteredHolds(l: Ledger, id: OrderId, op: NewOrder, a: AssetId)
    requires CanDebit(l, op.seller, op.sellId, op.sell) && id !in l.limits
    ensures Held(Entered(l, id, op), a) == Held(l, a) + if a == CORE then op.fee else 0
  {
    DebitHolds(l, op.seller, op.sellId, op.sell, a);
    PutLimitHolds(Debit(l, op.seller, op.sellId, op.sell), id, OrderOf(op), a);
  }

  /** The whole operation, or None when it is refused and undone. */
  ghost function Placed(rules: map<AssetId, FeeRule>, l: Ledger, id: OrderId, op: NewOrder): Option<Ledger>
    requires FairRules(rules) && InOrder(l, id)
  {
    if !CanEnter(l, op) then None
    else
      EnteredKeeps(l, id, op);
      Finished(Applied(rules, Entered(l, id, op), id), id, op)
  }

  /** The end of the operation: an order to fill or kill must be gone, and the fee is paid. */
  ghost function Finished(l: Ledger, id: OrderId, op: NewOrder): Option<Ledger> {
    if op.fillOrKill && id in l.limits then None else Charged(l, op.seller, op.fee)
  }

  ghost function Charged(l: Ledger, who: AccountId, fee: nat): Option<Ledger> {
    if CanDebit(l, who, CORE, fee) then Some(Debit(l, who, CORE, fee)) else None
  }

  /** The book stays uncrossed and free of dust, and no asset is gained or lost. */
  lemma PlacedKeepsOrder(rules: map<AssetId, FeeRule>, l: Ledger, id: OrderId, op: NewOrder)
    requires FairRules(rules) && InOrder(l, id) && Placed(rules, l, id, op).Some?
    ensures var l' := Placed(rules, l, id, op).value;
      && InOrder(l', id + 1)
      && forall a: AssetId :: Held(l', a) == Held(l, a)
  {
    EnteredKeeps(l, id, op);
    var l0 := Entered(l, id, op);
    var l1 := Applied(rules, l0, id);
    AppliedKeepsBook(rules, l0, id);
    forall a: AssetId ensures Held(Placed(rules, l, id, op).value, a) == Held(l, a) {
      AppliedHolds(rules, l0, id, a);
      DebitHolds(l1, op.seller, CORE, op.fee, a);
    }
  }

  /** Cancelling an order, or None when it is refused. */
  ghost function Withdrawn(l: Ledger, who: AccountId, id: OrderId, fee: nat): Option<Ledger> {
    if id !in l.limits || l.limits[id].seller != who then None
    else
      Charged(Cancelled(l.(pendingFees := l.pendingFees + fee), id), who, fee)
  }

  lemma RemovalKeepsResting(b: Book, id: OrderId)
    requires Resting(b)
    ensures Resting(b - {id})
  {
  }

  lemma WithdrawnKeepsOrder(l: Ledger, nextId: OrderId, who: AccountId, id: OrderId, fee: nat)
    requires InOrder(l, nextId) && Withdrawn(l, who, id, fee).Some?
    ensures var l' := Withdrawn(l, who, id, fee).value;
      && InOrder(l', nextId)
      && forall a: AssetId :: Held(l', a) == Held(l, a)
  {
    var l1 := l.(pendingFees := l.pendingFees + fee);
    RemovalKeepsResting(l.limits, id);
    forall a: AssetId ensures Held(Withdrawn(l, who, id, fee).value, a) == Held(l, a) {
      CancelHolds(l1, id, a);
      DebitHolds(Cancelled(l1, id), who, CORE, fee, a);
    }
  }

  // ---------- runs ----------

  datatype Event = Place(op: NewOrder) | Withdraw(who: AccountId, id: OrderId, fee: nat)

  datatype Market = Market(ledger: Ledger, nextId: OrderId)

  /** One operation; a refused one changes nothing. */
  ghost function Next(rules: map<AssetId, FeeRule>, m: Market, e: Event): Market
    requires FairRules(rules) && InOrder(m.ledger, m.nextId)
  {
    match e
    case Place(op) =>
      var r := Placed(rules, m.ledger, m.nextId, op);
      if r.Some? then Market(r.value, m.nextId + 1) else m
    case Withdraw(who, id, fee) =>
      var r := Withdrawn(m.ledger, who, id, fee);
      if r.Some? then Market(r.value, m.nextId) else m
  }

  lemma NextKeepsOrder(rules: map<AssetId, FeeRule>, m: Market, e: Event)
    requires FairRules(rules) && InOrder(m.ledger, m.nextId)
    ensures var m' := Next(rules, m, e);
      && InOrder(m'.ledger, m'.nextId)
      && forall a: AssetId :: Held(m'.ledger, a) == Held(m.ledger, a)
  {
    match e
    case Place(op) =>
      if Placed(rules, m.ledger, m.nextId, op).Some? { PlacedKeepsOrder(rules, m.ledger, m.nextId, op); }
    case Withdraw(who, id, fee) =>
      if Withdrawn(m.ledger, who, id, fee).Some? { WithdrawnKeepsOrder(m.ledger, m.nextId, who, id, fee); }
  }

  ghost function After(rules: map<AssetId, FeeRule>, m: Market, run: seq<Event>): Market
    requires FairRules(rules) && InOrder(m.ledger, m.nextId)
    decreases |run|
  {
    if run == [] then m
    else
      NextKeepsOrder(rules, m, run[0]);
      After(rules, Next(rules, m, run[0]), run[1..])
  }

  lemma {:induction false} RunStaysInOrder(rules: map<AssetId, FeeRule>, m: Market, run: seq<Event>)
    requires FairRules(rules) && InOrder(m.ledger, m.nextId)
    ensures var m' := After(rules, m, run);
      && InOrder(m'.ledger, m'.nextId)
      && forall a: AssetId :: Held(m'.ledger, a) == Held(m.ledger, a)
    decreases |run|
  {
    if run != [] {
      NextKeepsOrder(rules, m, run[0]);
      RunStaysInOrder(rules, Next(rules, m, run[0]), run[1..]);
    }
  }

  /** After any run of creations and cancellations no two orders cross, every order can still receive something,
      and of every asset balances, amounts for sale and fees add up to what they did before. */
  lemma RunsKeepOrder(rules: map<AssetId, FeeRule>, m: Market, run: seq<Event>)
    requires FairRules(rules) && InOrder(m.ledger, m.nextId)
    ensures var l := After(rules, m, run).ledger;
      && (forall i :: i in l.limits ==> l.limits[i].price.base > 0 && ToReceive(l.limits[i]) >= 1)
      && (forall i, j :: i in l.limits && j in l.limits && Opposite(l.limits[i], l.limits[j]) ==>
            Less(l.limits[j].price, Inverse(l.limits[i].price)))
      && (forall a: AssetId :: Held(l, a) == Held(m.ledger, a))
  {
    RunStaysInOrder(rules, m, run);
    var l := After(rules, m, run).ledger;
    forall i | i in l.limits ensures l.limits[i].price.base > 0 && ToReceive(l.limits[i]) >= 1 {
      assert Sellable(l.limits[i]);
    }
    forall i, j | i in l.limits && j in l.limits && Opposite(l.limits[i], l.limits[j])
      ensures Less(l.limits[j].price, Inverse(l.limits[i].price))
    {
      assert !Crosses(l.limits[i], l.limits[j]);
    }
  }

  /** Rounding can cost the taker what it pays: exactly when that buys less than one unit at the maker's price. That
      only happens to a remainder that is itself too small to be sold, and it does happen. */
  lemma TakerReceivesNothing(taker: LimitOrder, maker: LimitOrder)
    requires Sound(taker) && Sound(maker) && Crosses(taker, maker)
    ensures MatchTerms(taker, maker).takerReceives == 0 <==> taker.forSale * maker.price.base < maker.price.quote
    ensures MatchTerms(taker, maker).takerReceives == 0 ==> !Sellable(taker)
  {
    var b, q := maker.price.base, maker.price.quote;
    TakerGetsItsPrice(taker, maker);
    DivIsLargest(taker.forSale * b, q, 1);
    DivIsLargest(maker.forSale * q, b, taker.forSale);
    MulMono(1, maker.forSale, q);
  }

  // ---------- the operations ----------

  method CreateLimitOrder(db: MarketDatabase, op: NewOrder) returns (ok: bool)
    requires FairRules(db.rules) && InOrder(db.Contents(), db.nextId)
    requires op.sellId !in db.bits && op.receiveId !in db.bits
    modifies db
    ensures ok == Placed(db.rules, old(db.Contents()), old(db.nextId), op).Some?
    ensures ok ==> db.nextId == old(db.nextId) + 1
    ensures ok ==> db.Contents() == Placed(db.rules, old(db.Contents()), old(db.nextId), op).value
    ensures !ok ==> db.Contents() == old(db.Contents()) && db.nextId == old(db.nextId)
    ensures InOrder(db.Contents(), db.nextId)
    ensures forall a: AssetId :: Held(db.Contents(), a) == Held(old(db.Contents()), a)
  {
    ghost var l := db.Contents();
    if op.sellId == op.receiveId || op.sell == 0 || op.receive == 0 { return false; }
    // the session that undoes a refused operation
    var balances, limits, fees, pendingFees, nextId := db.balances, db.limits, db.fees, db.pendingFees, db.nextId;
    ok := PlaceOrder(db, op);
    if ok {
      PlacedKeepsOrder(db.rules, l, nextId, op);
    } else {
      db.balances, db.limits, db.fees, db.pendingFees, db.nextId := balances, limits, fees, pendingFees, nextId;
    }
  }

  /** The operation up to the point where it is refused. */
  method PlaceOrder(db: MarketDatabase, op: NewOrder) returns (ok: bool)
    requires FairRules(db.rules) && InOrder(db.Contents(), db.nextId) && Valid(op)
    modifies db`balances, db`limits, db`fees, db`pendingFees, db`nextId
    ensures ok == Placed(db.rules, old(db.Contents()), old(db.nextId), op).Some?
    ensures ok ==> db.nextId == old(db.nextId) + 1
    ensures ok ==> db.Contents() == Placed(db.rules, old(db.Contents()), old(db.nextId), op).value
  {
    var id := db.nextId;
    ok := EnterOrder(db, op);
    if ok {
      EnteredKeeps(old(db.Contents()), id, op);
      ok := FinishOrder(db, op, id);
    }
  }

  method EnterOrder(db: MarketDatabase, op: NewOrder) returns (ok: bool)
    requires InOrder(db.Contents(), db.nextId) && Valid(op)
    modifies db`balances, db`limits, db`nextId
    ensures ok == CanEnter(old(db.Contents()), op)
    ensures ok ==> db.nextId == old(db.nextId) + 1 && db.Contents() == Entered(old(db.Contents()), old(db.nextId), op)
  {
    ok := db.AdjustBalance(op.seller, op.sellId, -(op.sell as int));
    if !ok { return; }
    var o := OrderOf(op);
    db.limits := db.limits[db.nextId := o];
    db.nextId := db.nextId + 1;
    DivUnique(op.sell * op.receive, op.sell, op.receive, 0);
    ok := Times(o.forSale, o.price.baseId, o.price).Some?;
  }

  method FinishOrder(db: MarketDatabase, op: NewOrder, id: OrderId) returns (ok: bool)
    requires FairRules(db.rules) && AllSound(db.limits) && id in db.limits
    modifies db`balances, db`limits, db`fees, db`pendingFees
    ensures var end := Finished(Applied(db.rules, old(db.Contents()), id), id, op);
      ok == end.Some? && (ok ==> db.Contents() == end.value)
  {
    var filled := db.ApplyOrder(id);
    if op.fillOrKill && !filled { return false; }
    ok := db.AdjustBalance(op.seller, CORE, -(op.fee as int));
  }

  method CancelLimitOrder(db: MarketDatabase, who: AccountId, id: OrderId, fee: nat) returns (ok: bool)
    requires InOrder(db.Contents(), db.nextId)
    requires id in db.limits ==> db.limits[id].price.baseId !in db.bits && db.limits[id].price.quoteId !in db.bits
    modifies db
    ensures ok == Withdrawn(old(db.Contents()), who, id, fee).Some? && db.nextId == old(db.nextId)
    ensures db.Contents() == if ok then Withdrawn(old(db.Contents()), who, id, fee).value else old(db.Contents())
    ensures InOrder(db.Contents(), db.nextId)
    ensures forall a: AssetId :: Held(db.Contents(), a) == Held(old(db.Contents()), a)
  {
    ghost var l := db.Contents();
    if id !in db.limits || db.limits[id].seller != who { return false; }
    var balances, limits, pendingFees := db.balances, db.limits, db.pendingFees;
    ok := WithdrawOrder(db, who, id, fee);
    if ok {
      WithdrawnKeepsOrder(l, db.nextId, who, id, fee);
    } else {
      db.balances, db.limits, db.pendingFees := balances, limits, pendingFees;
    }
  }

  method WithdrawOrder(db: MarketDatabase, who: AccountId, id: OrderId, fee: nat) returns (ok: bool)
    requires id in db.limits && db.limits[id].seller == who
    modifies db`balances, db`limits, db`pendingFees
    ensures var end := Withdrawn(old(db.Contents()), who, id, fee);
      ok == end.Some? && (ok ==> db.Contents() == end.value)
  {
    db.pendingFees := db.pendingFees + fee;
    db.CancelLimit(id);
    ok := db.AdjustBalance(who, CORE, -(fee as int));
  }
}
