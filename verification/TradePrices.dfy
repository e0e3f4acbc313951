/**
 * What a match means for the two parties (libraries/chain/db_market.cpp:212-254, 306-344): which resting order
 * comes first, at whose price, and what reaches each account.
 */
module TradePrices {
  import opened Common
  import opened Prices
  import opened PriceIndices
  import opened Ledgers
  import opened Trading
  import opened OrderBooks

  // ---------- who is matched with whom ----------

  /** Somebody who sells `o` for what `p` offers, at prices that leave room for a trade. */
  predicate CanTrade(o: LimitOrder, p: LimitOrder) {
    Opposite(o, p) && o.price.quote * p.price.quote <= o.price.base * p.price.base
  }

  /** Of all orders that `taker` could trade with, `m` offers most for what it asks, and is the oldest of equals. */
  ghost predicate OffersMost(b: Book, taker: LimitOrder, m: OrderId) {
    && m in b && CanTrade(taker, b[m])
    && forall j :: j in b && CanTrade(taker, b[j]) ==> OffersNoMore(b[j], j, b[m], m)
  }

  predicate OffersNoMore(p: LimitOrder, j: OrderId, q: LimitOrder, m: OrderId) {
    && p.price.base * q.price.quote <= q.price.base * p.price.quote
    && (p.price.base * q.price.quote == q.price.base * p.price.quote ==> m <= j)
  }

  lemma FirstOffersMost(b: Book, taker: LimitOrder, m: OrderId)
    requires IsFirst(b, taker, m)
    ensures OffersMost(b, taker, m)
  {
    assert m in Crossing(b, taker);
    forall j | j in b && CanTrade(taker, b[j]) ensures OffersNoMore(b[j], j, b[m], m) {
      assert j in Crossing(b, taker);
      if j != m { assert Before(PricesOf(b)[m], m, PricesOf(b)[j], j); }
    }
  }

  /** And with none exactly when there is nobody to trade with. */
  lemma NobodyToTradeWith(b: Book, taker: LimitOrder)
    ensures Crossing(b, taker) == {} <==> forall j :: j in b ==> !CanTrade(taker, b[j])
  {
    forall j | j in b ensures CanTrade(taker, b[j]) <==> j in Crossing(b, taker) {
    }
  }

  /** A book at rest, in numbers: no two orders could trade, and each is worth at least a unit at its price. */
  lemma RestingMeans(b: Book)
    requires AllSound(b)
    ensures Resting(b) <==>
      && (forall i, j :: i in b && j in b ==> !CanTrade(b[i], b[j]))
      && (forall i :: i in b ==> b[i].price.base <= b[i].forSale * b[i].price.quote)
  {
    forall i | i in b ensures Sellable(b[i]) <==> b[i].price.base <= b[i].forSale * b[i].price.quote {
      TimesIsLargest(b[i].forSale, b[i].price, 1);
    }
    forall i, j | i in b && j in b ensures Crosses(b[i], b[j]) <==> CanTrade(b[i], b[j]) {
    }
  }

  // ---------- what reaches the accounts ----------

  /** What an account gets that is credited `n`. */
  function Gain(k: BalanceKey, who: AccountId, a: AssetId, n: nat): nat {
    if k == BalanceKey(who, a) then n else 0
  }

  lemma CreditReaches(l: Ledger, who: AccountId, a: AssetId, n: nat, k: BalanceKey)
    ensures Get(Credit(l, who, a, n).balances, k) == Get(l.balances, k) + Gain(k, who, a, n)
  {
  }

  lemma PaidReaches(l: Ledger, o: LimitOrder, receives: nat, fee: nat, k: BalanceKey)
    requires fee <= receives
    ensures Get(Paid(l, o, receives, fee).balances, k)
      == Get(l.balances, k) + Gain(k, o.seller, o.price.quoteId, receives - fee)
  {
    CreditReaches(AddFee(l, o.price.quoteId, fee), o.seller, o.price.quoteId, receives - fee, k);
  }

  /** Cancelling gives back the amount for sale and the deferred fee. */
  lemma CancelReaches(l: Ledger, id: OrderId, k: BalanceKey)
    requires id in l.limits
    ensures var o := l.limits[id];
      Get(Cancelled(l, id).balances, k) == Get(l.balances, k)
        + Gain(k, o.seller, o.price.baseId, o.forSale) + Gain(k, o.seller, CORE, o.deferredFee)
  {
    var o := l.limits[id];
    CreditReaches(l, o.seller, o.price.baseId, o.forSale, k);
    CreditReaches(Credit(l, o.seller, o.price.baseId, o.forSale), o.seller, CORE, o.deferredFee, k);
  }

  /** What a fill of a limit order brings its seller: the proceeds less the fee, and the rest back when it is culled. */
  lemma FillReaches(l: Ledger, id: OrderId, pays: nat, receives: nat, fee: nat, cull: bool, k: BalanceKey)
    requires id in l.limits && pays <= l.limits[id].forSale && fee <= receives
    ensures var o := l.limits[id];
      Get(FilledLimit(l, id, pays, receives, fee, cull).balances, k)
        == Get(l.balances, k) + Gain(k, o.seller, o.price.quoteId, receives - fee)
           + if pays < o.forSale && cull then Gain(k, o.seller, o.price.baseId, o.forSale - pays) else 0
  {
    var o := l.limits[id];
    PaidReaches(l, o, receives, fee, k);
    if pays < o.forSale && cull {
      var l1 := Paid(l, o, receives, fee);
      CancelReaches(l1.(limits := l1.limits[id := Rest(o, pays)]), id, k);
    }
  }

  /** A position without debt left is closed, and the borrower gets the rest of its collateral. */
  lemma CallReaches(l: Ledger, id: OrderId, pays: nat, receives: nat, k: BalanceKey)
    requires id in l.calls && pays <= l.calls[id].collateral && receives <= l.calls[id].debt
    ensures var c := l.calls[id];
      Get(FilledCall(l, id, pays, receives).balances, k) == Get(l.balances, k)
        + Gain(k, c.borrower, c.backing, if receives == c.debt then c.collateral - pays else 0)
  {
    var c := l.calls[id];
    CreditReaches(Issue(l, c.mia, -(receives as int)), c.borrower, c.backing, c.collateral - pays, k);
  }

  /** What a trade comes to. */
  datatype Trade = Trade(pays: nat, receives: nat, takerFee: nat, makerFee: nat)

  /** Both sides trade at the maker's price, and each gets what the other pays, less its fee; what is left of the maker
      is given back when it is worth less than a unit. */
  ghost predicate IsTrade(
      rules: map<AssetId, FeeRule>, l: Ledger, l': Ledger, taker: OrderId, maker: OrderId, t: Trade)
  {
    && taker in l.limits && maker in l.limits && taker != maker
    && var o, p := l.limits[taker], l.limits[maker];
    && t.pays <= o.forSale && t.receives <= p.forSale && AtMakersPrice(o, p, t.pays, t.receives)
    && t.takerFee <= t.receives && t.makerFee <= t.pays
    && IsFee(rules, o.price.quoteId, t.receives, t.takerFee) && IsFee(rules, p.price.quoteId, t.pays, t.makerFee)
    && l'.limits == Remaining(Remaining(l.limits, taker, t.pays, false), maker, t.receives, true)
    && forall k: BalanceKey :: Reaches(l, l', o, p, t, k)
  }

  ghost predicate Reaches(l: Ledger, l': Ledger, o: LimitOrder, p: LimitOrder, t: Trade, k: BalanceKey)
    requires t.receives <= p.forSale && t.takerFee <= t.receives && t.makerFee <= t.pays
  {
    Get(l'.balances, k) == Get(l.balances, k)
      + Gain(k, o.seller, o.price.quoteId, t.receives - t.takerFee)
      + Gain(k, p.seller, p.price.quoteId, t.pays - t.makerFee)
      + Gain(k, p.seller, p.price.baseId, if IsDust(p, t.receives) then p.forSale - t.receives else 0)
  }

  /** What is left of an order after it has paid is worth less than a unit at its price. */
  predicate IsDust(o: LimitOrder, pays: nat)
    requires pays <= o.forSale
  {
    (o.forSale - pays) * o.price.quote < o.price.base
  }

  /** The book when an order has paid: it is smaller or, if nothing or, when that matters, only dust is left, gone. */
  function Remaining(b: Book, id: OrderId, pays: nat, cull: bool): Book {
    if id !in b || pays > b[id].forSale then b
    else if pays == b[id].forSale || (cull && IsDust(b[id], pays)) then b - {id}
    else b[id := b[id].(forSale := b[id].forSale - pays, deferredFee := 0)]
  }

  lemma DustIsLeft(o: LimitOrder, pays: nat)
    requires Positive(o.price) && pays <= o.forSale
    ensures pays < o.forSale ==> (LeavesDust(o, pays) <==> IsDust(o, pays))
    ensures pays == o.forSale ==> IsDust(o, pays) && !LeavesDust(o, pays)
  {
    TimesIsLargest(o.forSale - pays, o.price, 1);
  }

  lemma TradedReaches(
      l: Ledger, taker: OrderId, maker: OrderId, t: Terms, takerFee: nat, makerFee: nat, cull: bool, k: BalanceKey)
    requires taker in l.limits && maker in l.limits && taker != maker
    requires t.takerPays <= l.limits[taker].forSale && t.takerReceives <= l.limits[maker].forSale
    requires takerFee <= t.takerReceives && makerFee <= t.takerPays
    requires Positive(l.limits[maker].price) && cull == LeavesDust(l.limits[maker], t.takerReceives)
    ensures Reaches(l, Traded(l, taker, maker, t, takerFee, makerFee, cull), l.limits[taker], l.limits[maker],
      Trade(t.takerPays, t.takerReceives, takerFee, makerFee), k)
  {
    var l1 := FilledLimit(l, taker, t.takerPays, t.takerReceives, takerFee, false);
    FillReaches(l, taker, t.takerPays, t.takerReceives, takerFee, false, k);
    FillReaches(l1, maker, t.takerReceives, t.takerPays, makerFee, cull, k);
    DustIsLeft(l.limits[maker], t.takerReceives);
  }

  lemma MatchIsTrade(rules: map<AssetId, FeeRule>, l: Ledger, taker: OrderId, maker: OrderId)
      returns (t: Trade)
    requires FairRules(rules) && CanMatch(l.limits, taker, maker)
    ensures IsTrade(rules, l, Matched(rules, l, taker, maker), taker, maker, t)
  {
    MatchIsSafe(rules, l.limits, taker, maker);
    var o, p := l.limits[taker], l.limits[maker];
    var m := MatchTerms(o, p);
    var takerFee, makerFee :=
      MarketFee(rules, o.price.quoteId, m.takerReceives), MarketFee(rules, p.price.quoteId, m.takerPays);
    t := Trade(m.takerPays, m.takerReceives, takerFee, makerFee);
    TermsAreMakers(o, p);
    MarketFeeIsFee(rules, o.price.quoteId, m.takerReceives);
    MarketFeeIsFee(rules, p.price.quoteId, m.takerPays);
    DustIsLeft(p, m.takerReceives);
    FillsKeepBook(l.limits, taker, maker, m);
    forall k: BalanceKey ensures Reaches(l, Matched(rules, l, taker, maker), o, p, t, k) {
      TradedReaches(l, taker, maker, m, takerFee, makerFee, LeavesDust(p, m.takerReceives), k);
    }
  }

  // ---------- a whole order ----------

  /** A trade with the order that offers most. */
  ghost predicate IsBestTrade(rules: map<AssetId, FeeRule>, l: Ledger, l': Ledger, taker: OrderId) {
    exists m, t :: IsTradeWith(rules, l, l', taker, m, t)
  }

  ghost predicate IsTradeWith(
      rules: map<AssetId, FeeRule>, l: Ledger, l': Ledger, taker: OrderId, m: OrderId, t: Trade)
  {
    taker in l.limits && OffersMost(l.limits, l.limits[taker], m) && IsTrade(rules, l, l', taker, m, t)
  }

  ghost predicate FindsNobody(b: Book, taker: OrderId) {
    taker in b ==> forall j :: j in b ==> !CanTrade(b[taker], b[j])
  }

  lemma MatchIsBest(rules: map<AssetId, FeeRule>, l: Ledger, taker: OrderId, m: OrderId)
    requires FairRules(rules) && AllSound(l.limits) && taker in l.limits && IsFirst(l.limits, l.limits[taker], m)
    ensures IsBestTrade(rules, l, Matched(rules, l, taker, m), taker)
  {
    FirstOffersMost(l.limits, l.limits[taker], m);
    var t := MatchIsTrade(rules, l, taker, m);
    assert IsTradeWith(rules, l, Matched(rules, l, taker, m), taker, m, t);
  }

  /** All the matches of a new order are such trades, one after another, until it is gone or finds nobody. */
  lemma MatchesAreTrades(rules: map<AssetId, FeeRule>, l: Ledger, taker: OrderId) returns (l1: Ledger)
    requires FairRules(rules) && AllSound(l.limits) && taker in l.limits
    ensures var end := MatchedAll(rules, l, taker);
      if FindsNobody(l.limits, taker) then end == l
      else
        && IsBestTrade(rules, l, l1, taker) && AllSound(l1.limits)
        && end == if taker in l1.limits then MatchedAll(rules, l1, taker) else l1
  {
    l1 := l;
    NobodyToTradeWith(l.limits, l.limits[taker]);
    if m :| IsFirst(l.limits, l.limits[taker], m) {
      assert m in Crossing(l.limits, l.limits[taker]);
      MatchedAllStep(rules, l, taker, m);
      MatchIsBest(rules, l, taker, m);
      l1 := Matched(rules, l, taker, m);
    } else {
      NoFirst(l.limits, l.limits[taker]);
    }
  }

  /** What is left of the order after them is given back if it is worth less than a unit. */
  lemma RestIsGivenBack(rules: map<AssetId, FeeRule>, l: Ledger, taker: OrderId)
    requires FairRules(rules) && AllSound(l.limits) && taker in l.limits
    ensures var end, l' := MatchedAll(rules, l, taker), Applied(rules, l, taker);
      && FindsNobody(end.limits, taker)
      && if taker in end.limits && IsDust(end.limits[taker], 0) then
           && l'.limits == end.limits - {taker}
           && forall k: BalanceKey :: GivenBack(end, l', end.limits[taker], k)
         else l' == end
  {
    var end := MatchedAll(rules, l, taker);
    MatchedAllStays(rules, l, taker);
    if taker in end.limits {
      TimesIsLargest(end.limits[taker].forSale, end.limits[taker].price, 1);
      forall k: BalanceKey ensures GivenBack(end, Cancelled(end, taker), end.limits[taker], k) {
        CancelReaches(end, taker, k);
      }
    }
  }

  ghost predicate GivenBack(l: Ledger, l': Ledger, o: LimitOrder, k: BalanceKey) {
    Get(l'.balances, k)
      == Get(l.balances, k) + Gain(k, o.seller, o.price.baseId, o.forSale) + Gain(k, o.seller, CORE, o.deferredFee)
  }

  lemma {:induction false} MatchedAllStays(rules: map<AssetId, FeeRule>, l: Ledger, taker: OrderId)
    requires FairRules(rules) && AllSound(l.limits) && taker in l.limits
    ensures var b := MatchedAll(rules, l, taker).limits;
      FindsNobody(b, taker) && (taker in b ==> Sound(b[taker]))
    decreases |l.limits|
  {
    if m :| IsFirst(l.limits, l.limits[taker], m) {
      MatchedAllStep(rules, l, taker, m);
      var l1 := Matched(rules, l, taker, m);
      if taker in l1.limits {
        Fewer(l.limits, l1.limits, m);
        MatchedAllStays(rules, l1, taker);
      }
    } else {
      NoFirst(l.limits, l.limits[taker]);
      NobodyToTradeWith(l.limits, l.limits[taker]);
    }
  }
}
