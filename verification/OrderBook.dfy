/**
 * The limit order book: which order a new one is matched with first, what is left after all its matches,
 * and what every run keeps of the book (libraries/chain/db_market.cpp:135-254).
 */
module OrderBooks {
  import opened MapSums
  import opened Prices
  import opened PriceIndices
  import opened Ledgers
  import opened Trading

  type Book = map<OrderId, LimitOrder>

  // ---------- the book ----------

  ghost predicate AllSound(b: Book) {
    forall i :: i in b ==> Sound(b[i])
  }

  /** Large enough to be sold at its price. */
  predicate Sellable(o: LimitOrder) {
    o.price.base > 0 && ToReceive(o) > 0
  }

  /** Leaving out `but`, no order is too small to be sold and no two orders cross. */
  ghost predicate RestingBut(b: Book, but: OrderId) {
    && (forall i :: i in b && i != but ==> Sellable(b[i]))
    && (forall i, j :: i in b && j in b && i != but && j != but ==> !Crosses(b[i], b[j]))
  }

  /** The book between operations. */
  ghost predicate Resting(b: Book) {
    && AllSound(b)
    && (forall i :: i in b ==> Sellable(b[i]))
    && (forall i, j :: i in b && j in b ==> !Crosses(b[i], b[j]))
  }

  /** The orders' price index. */
  function PricesOf(b: Book): Index {
    map i | i in b :: b[i].price
  }

  lemma PricesAreOrdered(b: Book)
    requires AllSound(b)
    ensures AllOrdered(PricesOf(b))
  {
  }

  /** The orders that a new one crosses. */
  function Crossing(b: Book, taker: LimitOrder): set<OrderId> {
    set i | i in b && Crosses(taker, b[i])
  }

  /** The first order of the index that the taker crosses. */
  ghost predicate IsFirst(b: Book, taker: LimitOrder, m: OrderId) {
    FirstAmong(PricesOf(b), Crossing(b, taker), m)
  }

  lemma CrossesIsSymmetric(o: LimitOrder, p: LimitOrder)
    requires Sound(o) && Sound(p)
    ensures Crosses(o, p) <==> Crosses(p, o)
    ensures !Crosses(o, o)
  {
    if Opposite(o, p) { InverseReverses(o.price, p.price); }
  }

  /** What an order of the book may become: smaller, at the same price. */
  ghost predicate Shrunk(o: LimitOrder, o': LimitOrder) {
    o'.price == o.price && o'.seller == o.seller && 0 < o'.forSale <= o.forSale
  }

  ghost predicate Became(b: Book, i: OrderId, o: LimitOrder, taker: bool) {
    i in b && Shrunk(b[i], o) && (taker || o == b[i] || Sellable(o))
  }

  /** Orders may go or shrink, and only `taker` to something too small to be sold. */
  ghost predicate Later(b: Book, b': Book, taker: OrderId) {
    forall i :: i in b' ==> Became(b, i, b'[i], i == taker)
  }

  lemma LaterKeepsBook(b: Book, b': Book, taker: OrderId)
    requires AllSound(b) && Later(b, b', taker)
    ensures AllSound(b')
    ensures RestingBut(b, taker) ==> RestingBut(b', taker)
  {
    forall i | i in b' ensures Sound(b'[i]) {
      var o, o' := b[i], b'[i];
      TimesGrows(o'.forSale, o.forSale, o.price.quote, o.price.base);
    }
  }

  // ---------- matching ----------

  /** Whether a fill leaves something too small of the maker. */
  function LeavesDust(maker: LimitOrder, pays: nat): bool
    requires pays <= maker.forSale
  {
    pays < maker.forSale && !Sellable(Rest(maker, pays))
  }

  ghost predicate CanMatch(b: Book, taker: OrderId, maker: OrderId) {
    && AllSound(b) && taker in b && maker in b && Crosses(b[taker], b[maker])
  }

  /** match: both orders are filled at the maker's price. */
  ghost function Matched(rules: map<AssetId, FeeRule>, l: Ledger, taker: OrderId, maker: OrderId): (l': Ledger)
    requires FairRules(rules) && CanMatch(l.limits, taker, maker)
    ensures l' == l.(balances := l'.balances, fees := l'.fees, pendingFees := l'.pendingFees, limits := l'.limits)
    ensures Later(l.limits, l'.limits, taker)
    ensures taker in l'.limits ==> maker !in l'.limits
  {
    MatchIsSafe(rules, l.limits, taker, maker);
    var o, p := l.limits[taker], l.limits[maker];
    var t := MatchTerms(o, p);
    FillsKeepBook(l.limits, taker, maker, t);
    Traded(l, taker, maker, t,
      MarketFee(rules, o.price.quoteId, t.takerReceives), MarketFee(rules, p.price.quoteId, t.takerPays),
      LeavesDust(p, t.takerReceives))
  }

  lemma MatchIsSafe(rules: map<AssetId, FeeRule>, b: Book, taker: OrderId, maker: OrderId)
    requires FairRules(rules) && CanMatch(b, taker, maker)
    ensures var o, p := b[taker], b[maker];
      var t := MatchTerms(o, p);
      && taker != maker
      && t.takerPays <= o.forSale && t.takerReceives <= p.forSale
      && (t.takerPays == o.forSale || t.takerReceives == p.forSale)
      && MarketFee(rules, o.price.quoteId, t.takerReceives) <= t.takerReceives
      && MarketFee(rules, p.price.quoteId, t.takerPays) <= t.takerPays
  {
    var o, p := b[taker], b[maker];
    CrossesIsSymmetric(o, o);
    TermsAreFair(o, p);
    FeeWithinAmount(rules, o.price.quoteId, MatchTerms(o, p).takerReceives);
    FeeWithinAmount(rules, p.price.quoteId, MatchTerms(o, p).takerPays);
  }

  /** A match shrinks the two orders; one of them is used up or, too small to be sold, given back. */
  lemma FillsKeepBook(b: Book, taker: OrderId, maker: OrderId, t: Terms)
    requires AllSound(b) && taker in b && maker in b && taker != maker
    requires t.takerPays <= b[taker].forSale && t.takerReceives <= b[maker].forSale
    requires t.takerPays == b[taker].forSale || t.takerReceives == b[maker].forSale
    ensures var b1 := AfterFill(b, taker, t.takerPays, false);
      maker in b1 && b1[maker] == b[maker]
    ensures var b1 := AfterFill(b, taker, t.takerPays, false);
      var b2 := AfterFill(b1, maker, t.takerReceives, LeavesDust(b[maker], t.takerReceives));
      Later(b, b2, taker) && (taker in b2 ==> maker !in b2)
  {
    var b1 := AfterFill(b, taker, t.takerPays, false);
    var b2 := AfterFill(b1, maker, t.takerReceives, LeavesDust(b[maker], t.takerReceives));
    forall i | i in b2 ensures Became(b, i, b2[i], i == taker) {
      if i == taker { assert b2[i] == Rest(b[taker], t.takerPays); }
      if i == maker { assert b2[i] == Rest(b[maker], t.takerReceives); }
      if i != taker && i != maker { assert b2[i] == b[i]; }
    }
  }

  lemma MatchHolds(rules: map<AssetId, FeeRule>, l: Ledger, taker: OrderId, maker: OrderId, x: AssetId)
    requires FairRules(rules) && CanMatch(l.limits, taker, maker)
    ensures Held(Matched(rules, l, taker, maker), x) == Held(l, x)
  {
    MatchIsSafe(rules, l.limits, taker, maker);
    var o, p := l.limits[taker], l.limits[maker];
    var t := MatchTerms(o, p);
    TradeHolds(l, taker, maker, t,
      MarketFee(rules, o.price.quoteId, t.takerReceives), MarketFee(rules, p.price.quoteId, t.takerPays),
      LeavesDust(p, t.takerReceives), x);
  }

  lemma Fewer(b: Book, b': Book, gone: OrderId)
    requires gone in b && gone !in b' && forall i :: i in b' ==> i in b
    ensures |b'| < |b|
  {
    assert b'.Keys <= b.Keys - {gone};
    SubsetIsNotLarger(b'.Keys, b.Keys - {gone});
    assert |b.Keys - {gone}| == |b.Keys| - 1;
    assert |b| == |b.Keys| && |b'| == |b'.Keys|;
  }

  /** All the matches of a new order: with the first order it crosses, again and again until it is used up or
      crosses none. */
  ghost function MatchedAll(rules: map<AssetId, FeeRule>, l: Ledger, taker: OrderId): (l': Ledger)
    requires FairRules(rules) && AllSound(l.limits) && taker in l.limits
    ensures l' == l.(balances := l'.balances, fees := l'.fees, pendingFees := l'.pendingFees, limits := l'.limits)
    ensures forall i :: i in l'.limits ==> i in l.limits
    decreases |l.limits|
  {
    if m :| IsFirst(l.limits, l.limits[taker], m) then
      var l1 := Matched(rules, l, taker, m);
      LaterKeepsBook(l.limits, l1.limits, taker);
      if taker !in l1.limits then l1
      else
        Fewer(l.limits, l1.limits, m);
        MatchedAll(rules, l1, taker)
    else l
  }

  /** apply_order: what is left of the new order is given back when it is too small to be sold. */
  ghost function Applied(rules: map<AssetId, FeeRule>, l: Ledger, taker: OrderId): (l': Ledger)
    requires FairRules(rules) && AllSound(l.limits) && taker in l.limits
    ensures l' == l.(balances := l'.balances, fees := l'.fees, pendingFees := l'.pendingFees, limits := l'.limits)
    ensures forall i :: i in l'.limits ==> i in l.limits
  {
    var l' := MatchedAll(rules, l, taker);
    if taker in l'.limits && !Sellable(l'.limits[taker]) then Cancelled(l', taker) else l'
  }

  // ---------- what matching promises ----------

  /** MatchedAll, one match at a time. */
  lemma MatchedAllStep(rules: map<AssetId, FeeRule>, l: Ledger, taker: OrderId, m: OrderId)
    requires FairRules(rules) && AllSound(l.limits) && taker in l.limits && IsFirst(l.limits, l.limits[taker], m)
    ensures var l1 := Matched(rules, l, taker, m);
      && AllSound(l1.limits)
      && MatchedAll(rules, l, taker) == if taker in l1.limits then MatchedAll(rules, l1, taker) else l1
  {
    PricesAreOrdered(l.limits);
    forall n | IsFirst(l.limits, l.limits[taker], n) ensures n == m {
      FirstIsUnique(PricesOf(l.limits), Crossing(l.limits, l.limits[taker]), m, n);
    }
    LaterKeepsBook(l.limits, Matched(rules, l, taker, m).limits, taker);
  }

  lemma NoFirst(b: Book, taker: LimitOrder)
    requires AllSound(b) && forall m :: !IsFirst(b, taker, m)
    ensures Crossing(b, taker) == {}
  {
    PricesAreOrdered(b);
    var crossing := Crossing(b, taker);
    if crossing != {} {
      FirstExists(PricesOf(b), crossing);
      var m :| FirstAmong(PricesOf(b), crossing, m);
      assert IsFirst(b, taker, m);
    }
  }

  /** After all its matches the new order crosses nothing, and the rest of the book is as before but smaller. */
  lemma {:induction false} MatchedAllKeepsBook(rules: map<AssetId, FeeRule>, l: Ledger, taker: OrderId)
    requires FairRules(rules) && AllSound(l.limits) && RestingBut(l.limits, taker) && taker in l.limits
    ensures var b := MatchedAll(rules, l, taker).limits;
      && AllSound(b) && RestingBut(b, taker)
      && (taker in b ==> Crossing(b, b[taker]) == {})
    decreases |l.limits|
  {
    if m :| IsFirst(l.limits, l.limits[taker], m) {
      MatchedAllStep(rules, l, taker, m);
      var l1 := Matched(rules, l, taker, m);
      LaterKeepsBook(l.limits, l1.limits, taker);
      if taker in l1.limits {
        Fewer(l.limits, l1.limits, m);
        MatchedAllKeepsBook(rules, l1, taker);
      }
    } else {
      NoFirst(l.limits, l.limits[taker]);
    }
  }

  /** No asset is gained or lost by any number of matches. */
  lemma {:induction false} MatchedAllHolds(rules: map<AssetId, FeeRule>, l: Ledger, taker: OrderId, x: AssetId)
    requires FairRules(rules) && AllSound(l.limits) && taker in l.limits
    ensures Held(MatchedAll(rules, l, taker), x) == Held(l, x)
    decreases |l.limits|
  {
    if m :| IsFirst(l.limits, l.limits[taker], m) {
      MatchedAllStep(rules, l, taker, m);
      var l1 := Matched(rules, l, taker, m);
      LaterKeepsBook(l.limits, l1.limits, taker);
      MatchHolds(rules, l, taker, m, x);
      if taker in l1.limits {
        Fewer(l.limits, l1.limits, m);
        MatchedAllHolds(rules, l1, taker, x);
      }
    }
  }

  /** An order put on a book at rest, matched and culled, leaves a book at rest. */
  lemma AppliedKeepsBook(rules: map<AssetId, FeeRule>, l: Ledger, taker: OrderId)
    requires FairRules(rules) && AllSound(l.limits) && RestingBut(l.limits, taker) && taker in l.limits
    ensures Resting(Applied(rules, l, taker).limits)
  {
    MatchedAllKeepsBook(rules, l, taker);
    var b := MatchedAll(rules, l, taker).limits;
    if taker in b && Sellable(b[taker]) {
      forall i, j | i in b && j in b ensures !Crosses(b[i], b[j]) {
        CrossesIsSymmetric(b[i], b[j]);
        assert i !in Crossing(b, b[taker]) && j !in Crossing(b, b[taker]);
      }
    }
  }

  lemma AppliedHolds(rules: map<AssetId, FeeRule>, l: Ledger, taker: OrderId, x: AssetId)
    requires FairRules(rules) && AllSound(l.limits) && taker in l.limits
    ensures Held(Applied(rules, l, taker), x) == Held(l, x)
  {
    MatchedAllHolds(rules, l, taker, x);
    var l' := MatchedAll(rules, l, taker);
    if taker in l'.limits { CancelHolds(l', taker, x); }
  }
}
