/** A run in which the remainder of an order pays something and receives nothing
    (libraries/chain/db_market.cpp:226-242). */
module LostRemainders {
  import opened Common
  import opened Arithmetic
  import opened Prices
  import opened PriceIndices
  import opened Ledgers
  import opened Trading
  import opened OrderBooks
  import opened LimitMarkets

  /** An order that crosses nothing rests on the book as it was placed. */
  lemma PlacedQuietly(rules: map<AssetId, FeeRule>, l: Ledger, id: OrderId, op: NewOrder)
    requires FairRules(rules) && InOrder(l, id) && CanEnter(l, op) && !op.fillOrKill && op.fee == 0
    requires Crossing(Entered(l, id, op).limits, OrderOf(op)) == {}
    ensures Placed(rules, l, id, op) == Some(Entered(l, id, op))
  {
    EnteredKeeps(l, id, op);
    var l' := Entered(l, id, op);
    forall m ensures !IsFirst(l'.limits, l'.limits[id], m) { assert m !in Crossing(l'.limits, OrderOf(op)); }
    DivUnique(op.sell * op.receive, op.sell, op.receive, 0);
  }

  // ---------- a remainder that is lost ----------

  const MAKER := NewOrder(1, 1, 2, 2, 1, 0, false)    // one of asset 2 for two of asset 1
  const SECOND := NewOrder(2, 1, 2, 2, 1, 0, false)   // the same of another account
  const TAKER := NewOrder(0, 3, 1, 1, 2, 0, false)    // three of asset 1 for at least one of asset 2

  /** The three accounts own what they are going to sell. */
  function Start(): Ledger {
    Credit(Credit(Credit(Ledger(map[], map[], map[], map[], map[], 0, map[], map[]), 0, 1, 3), 1, 2, 1), 2, 2, 1)
  }

  lemma StartIsInOrder()
    ensures InOrder(Start(), 0)
  {
    var none := Ledger(map[], map[], map[], map[], map[], 0, map[], map[]);
    forall a: AssetId ensures Held(Start(), a) <= MAX_SHARE_SUPPLY {
      assert Held(none, a) == 0;
      CreditHolds(none, 0, 1, 3, a);
      CreditHolds(Credit(none, 0, 1, 3), 1, 2, 1, a);
      CreditHolds(Credit(Credit(none, 0, 1, 3), 1, 2, 1), 2, 2, 1, a);
    }
  }

  function FirstPlaced(): Ledger {
    Start().(balances := map[BalanceKey(0, 1) := 3, BalanceKey(1, 2) := 0, BalanceKey(2, 2) := 1],
             limits := map[0 := OrderOf(MAKER)])
  }

  function BothPlaced(): Ledger {
    Start().(balances := map[BalanceKey(0, 1) := 3, BalanceKey(1, 2) := 0, BalanceKey(2, 2) := 0],
             limits := map[0 := OrderOf(MAKER), 1 := OrderOf(SECOND)])
  }

  function TakerPlaced(): Ledger {
    Start().(balances := map[BalanceKey(0, 1) := 0, BalanceKey(1, 2) := 0, BalanceKey(2, 2) := 0],
             limits := map[0 := OrderOf(MAKER), 1 := OrderOf(SECOND), 2 := OrderOf(TAKER)])
  }

  /** The two orders to sell asset 2 rest. */
  lemma FirstRests()
    ensures InOrder(Start(), 0) && InOrder(FirstPlaced(), 1)
    ensures Next(map[], Market(Start(), 0), Place(MAKER)) == Market(FirstPlaced(), 1)
  {
    StartIsInOrder();
    assert Entered(Start(), 0, MAKER) == FirstPlaced();
    assert Crossing(FirstPlaced().limits, OrderOf(MAKER)) == {};
    PlacedQuietly(map[], Start(), 0, MAKER);
    PlacedKeepsOrder(map[], Start(), 0, MAKER);
  }

  lemma SecondRests()
    requires InOrder(FirstPlaced(), 1)
    ensures InOrder(BothPlaced(), 2)
    ensures Next(map[], Market(FirstPlaced(), 1), Place(SECOND)) == Market(BothPlaced(), 2)
  {
    assert Entered(FirstPlaced(), 1, SECOND) == BothPlaced();
    assert Crossing(BothPlaced().limits, OrderOf(SECOND)) == {};
    PlacedQuietly(map[], FirstPlaced(), 1, SECOND);
    PlacedKeepsOrder(map[], FirstPlaced(), 1, SECOND);
  }

  lemma TakerEnters()
    requires InOrder(BothPlaced(), 2)
    ensures CanEnter(BothPlaced(), TAKER) && Entered(BothPlaced(), 2, TAKER) == TakerPlaced()
    ensures AllSound(TakerPlaced().limits)
  {
    assert Entered(BothPlaced(), 2, TAKER) == TakerPlaced();
    EnteredKeeps(BothPlaced(), 2, TAKER);
  }

  const LEFT := LimitOrder(0, 1, Price(3, 1, 1, 2), 0)

  /** What the taker has of both assets, and what the second account has of the taker's. */
  predicate Has(l: Ledger, sold: nat, bought: nat, second: nat) {
    && Get(l.balances, BalanceKey(0, 1)) == sold && Get(l.balances, BalanceKey(0, 2)) == bought
    && Get(l.balances, BalanceKey(2, 1)) == second
  }

  /** The taker's first match uses up the first order and leaves one unit of its own. */
  lemma FirstMatch()
    requires AllSound(TakerPlaced().limits)
    ensures var l := TakerPlaced();
      && IsFirst(l.limits, l.limits[2], 0) && CanMatch(l.limits, 2, 0)
      && MatchTerms(l.limits[2], l.limits[0]) == Terms(2, 1)
      && Matched(map[], l, 2, 0).limits == map[1 := OrderOf(SECOND), 2 := LEFT]
      && Has(Matched(map[], l, 2, 0), 0, 1, 0)
  {
    var l := TakerPlaced();
    FirstIsMaker();
    assert MatchTerms(l.limits[2], l.limits[0]) == Terms(2, 1);
    FirstMatchMoves(l);
  }

  lemma FirstIsMaker()
    ensures var b := TakerPlaced().limits; IsFirst(b, b[2], 0) && Crosses(b[2], b[0])
  {
    var b := TakerPlaced().limits;
    assert Crossing(b, b[2]) == {0, 1};
  }

  lemma FirstMatchMoves(l: Ledger)
    requires l == TakerPlaced() && CanMatch(l.limits, 2, 0) && MatchTerms(l.limits[2], l.limits[0]) == Terms(2, 1)
    ensures var l' := Matched(map[], l, 2, 0);
      && l'.limits == map[1 := OrderOf(SECOND), 2 := LEFT]
      && Has(l', 0, 1, 0)
  {
    assert Matched(map[], l, 2, 0) == Traded(l, 2, 0, Terms(2, 1), 0, 0, false);
    FirstTrade(l);
  }

  lemma FirstTrade(l: Ledger)
    requires l == TakerPlaced()
    ensures var l' := Traded(l, 2, 0, Terms(2, 1), 0, 0, false);
      && l'.limits == map[1 := OrderOf(SECOND), 2 := LEFT]
      && Has(l', 0, 1, 0)
  {
    TradePays(l, 2, 0, Terms(2, 1), BalanceKey(0, 1));
    TradePays(l, 2, 0, Terms(2, 1), BalanceKey(0, 2));
    TradePays(l, 2, 0, Terms(2, 1), BalanceKey(2, 1));
    assert AfterFill(l.limits, 2, 2, false) == l.limits[2 := LEFT];
    assert AfterFill(l.limits[2 := LEFT], 0, 1, false) == map[1 := OrderOf(SECOND), 2 := LEFT];
  }

  /** Without fees and refunds a trade pays each side what the other one pays out. */
  lemma TradePays(l: Ledger, taker: OrderId, maker: OrderId, t: Terms, k: BalanceKey)
    requires taker in l.limits && maker in l.limits && taker != maker
    requires t.takerPays <= l.limits[taker].forSale && t.takerReceives <= l.limits[maker].forSale
    ensures var o, p := l.limits[taker], l.limits[maker];
      Get(Traded(l, taker, maker, t, 0, 0, false).balances, k) == Get(l.balances, k)
        + (if k == BalanceKey(o.seller, o.price.quoteId) then t.takerReceives else 0)
        + (if k == BalanceKey(p.seller, p.price.quoteId) then t.takerPays else 0)
  {
    FillPays(l, taker, t.takerPays, t.takerReceives, k);
    FillPays(FilledLimit(l, taker, t.takerPays, t.takerReceives, 0, false), maker, t.takerReceives, t.takerPays, k);
  }

  lemma FillPays(l: Ledger, id: OrderId, pays: nat, receives: nat, k: BalanceKey)
    requires id in l.limits && pays <= l.limits[id].forSale
    ensures Get(FilledLimit(l, id, pays, receives, 0, false).balances, k) == Get(l.balances, k)
      + if k == BalanceKey(l.limits[id].seller, l.limits[id].price.quoteId) then receives else 0
  {
    var o := l.limits[id];
    assert FilledLimit(l, id, pays, receives, 0, false).balances == Paid(l, o, receives, 0).balances;
    CreditPays(AddFee(l, o.price.quoteId, 0), o.seller, o.price.quoteId, receives, k);
  }

  lemma CreditPays(l: Ledger, who: AccountId, a: AssetId, n: nat, k: BalanceKey)
    ensures Get(Credit(l, who, a, n).balances, k) == Get(l.balances, k) + if k == BalanceKey(who, a) then n else 0
  {
  }

  lemma SecondMatch(l: Ledger)
    requires l.limits == map[1 := OrderOf(SECOND), 2 := LEFT] && AllSound(l.limits)
    ensures IsFirst(l.limits, l.limits[2], 1) && CanMatch(l.limits, 2, 1)
    ensures MatchTerms(l.limits[2], l.limits[1]) == Terms(1, 0)
    ensures var l' := Matched(map[], l, 2, 1);
      && l'.limits == map[1 := OrderOf(SECOND)]
      && (Has(l, 0, 1, 0) ==> Has(l', 0, 1, 1))
  {
    assert Crossing(l.limits, l.limits[2]) == {1};
    assert Matched(map[], l, 2, 1) == Traded(l, 2, 1, Terms(1, 0), 0, 0, false);
    SecondTrade(l);
  }

  lemma SecondTrade(l: Ledger)
    requires l.limits == map[1 := OrderOf(SECOND), 2 := LEFT]
    ensures var l' := Traded(l, 2, 1, Terms(1, 0), 0, 0, false);
      && l'.limits == map[1 := OrderOf(SECOND)]
      && (Has(l, 0, 1, 0) ==> Has(l', 0, 1, 1))
  {
    TradePays(l, 2, 1, Terms(1, 0), BalanceKey(0, 1));
    TradePays(l, 2, 1, Terms(1, 0), BalanceKey(0, 2));
    TradePays(l, 2, 1, Terms(1, 0), BalanceKey(2, 1));
  }

  /** The taker's two matches; the second one takes its last unit for nothing. */
  lemma TakerIsMatched()
    requires AllSound(TakerPlaced().limits)
    ensures var l := MatchedAll(map[], TakerPlaced(), 2); l.limits == map[1 := OrderOf(SECOND)] && Has(l, 0, 1, 1)
  {
    var l0 := TakerPlaced();
    FirstMatch();
    MatchedAllStep(map[], l0, 2, 0);
    var l1 := Matched(map[], l0, 2, 0);
    SecondMatch(l1);
    MatchedAllStep(map[], l1, 2, 1);
  }

  lemma TakerIsPlaced()
    requires InOrder(BothPlaced(), 2)
    ensures var l := Next(map[], Market(BothPlaced(), 2), Place(TAKER)).ledger;
      l.limits == map[1 := OrderOf(SECOND)] && Has(l, 0, 1, 1)
  {
    TakerEnters();
    TakerIsMatched();
    var l := MatchedAll(map[], TakerPlaced(), 2);
    assert Applied(map[], TakerPlaced(), 2) == l && Finished(l, 2, TAKER) == Some(l);
    assert Placed(map[], BothPlaced(), 2, TAKER) == Some(l);
  }

  /** At the end of the run the taker has one unit and nothing left, while the second account has received one and still
      offers all it had. */
  ghost predicate EndsInLoss(m: Market, run: seq<Event>) {
    && InOrder(m.ledger, m.nextId)
    && var l := After(map[], m, run).ledger;
    && Has(l, 0, 1, 1) && l.limits == map[1 := OrderOf(SECOND)]
  }

  lemma OneEarlier(m: Market, e: Event, next: Market, run: seq<Event>)
    requires InOrder(m.ledger, m.nextId) && Next(map[], m, e) == next && EndsInLoss(next, run)
    ensures EndsInLoss(m, [e] + run)
  {
    assert ([e] + run)[1..] == run;
  }

  lemma LossFromTaker()
    requires InOrder(BothPlaced(), 2)
    ensures EndsInLoss(Market(BothPlaced(), 2), [Place(TAKER)])
  {
    var m := Market(BothPlaced(), 2);
    TakerIsPlaced();
    NextKeepsOrder(map[], m, Place(TAKER));
    LossAtEnd(m, Place(TAKER), Next(map[], m, Place(TAKER)));
  }

  lemma LossAtEnd(m: Market, e: Event, end: Market)
    requires InOrder(m.ledger, m.nextId) && Next(map[], m, e) == end && InOrder(end.ledger, end.nextId)
    requires Has(end.ledger, 0, 1, 1) && end.ledger.limits == map[1 := OrderOf(SECOND)]
    ensures EndsInLoss(m, [e])
  {
    assert After(map[], end, []) == end && [e][1..] == [];
  }

  lemma LossFromSecond()
    requires InOrder(FirstPlaced(), 1)
    ensures EndsInLoss(Market(FirstPlaced(), 1), [Place(SECOND)] + [Place(TAKER)])
  {
    SecondRests();
    LossFromTaker();
    OneEarlier(Market(FirstPlaced(), 1), Place(SECOND), Market(BothPlaced(), 2), [Place(TAKER)]);
  }

  lemma LossFromStart()
    ensures EndsInLoss(Market(Start(), 0), [Place(MAKER)] + ([Place(SECOND)] + [Place(TAKER)]))
  {
    FirstRests();
    LossFromSecond();
    OneEarlier(Market(Start(), 0), Place(MAKER), Market(FirstPlaced(), 1), [Place(SECOND)] + [Place(TAKER)]);
  }

  /** There is a run, placing three orders, over which one account pays three units and receives only one: the last
      unit that it sells buys nothing. */
  lemma RemaindersAreLost()
    ensures exists m: Market, run: seq<Event> :: Has(m.ledger, 3, 0, 0) && EndsInLoss(m, run)
  {
    LossFromStart();
    assert Has(Market(Start(), 0).ledger, 3, 0, 0);
  }
}
