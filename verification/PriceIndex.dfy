/** Indices by price and id (libraries/chain/include/graphene/chain/market_object.hpp): highest price first, then
    lowest id. */
module PriceIndices {
  import opened Prices

  type Index = map<nat, Price>

  predicate Before(p: Price, i: nat, q: Price, j: nat) {
    Less(q, p) || (AtLeast(p, q) && i < j)
  }

  /** Every entry has something to sell. */
  ghost predicate AllOrdered(x: Index) {
    forall i :: i in x ==> x[i].base > 0
  }

  ghost predicate FirstAmong(x: Index, ids: set<nat>, m: nat)
    requires ids <= x.Keys
  {
    m in ids && forall j :: j in ids && j != m ==> Before(x[m], m, x[j], j)
  }

  lemma BeforeIsOrder(p: Price, i: nat, q: Price, j: nat, r: Price, k: nat)
    requires p.base > 0 && q.base > 0 && r.base > 0
    ensures i != j ==> (Before(p, i, q, j) <==> !Before(q, j, p, i))
    ensures Before(p, i, q, j) && Before(q, j, r, k) ==> Before(p, i, r, k)
  {
    LessIsTransitive(p, q, r);
    LessIsTransitive(r, p, q);
    LessIsTransitive(q, r, p);
  }

  lemma FirstIsUnique(x: Index, ids: set<nat>, m: nat, n: nat)
    requires AllOrdered(x) && ids <= x.Keys && FirstAmong(x, ids, m) && FirstAmong(x, ids, n)
    ensures m == n
  {
    if m != n { BeforeIsOrder(x[m], m, x[n], n, x[m], m); }
  }

  lemma AddToFirst(x: Index, ids: set<nat>, m: nat, k: nat)
    requires AllOrdered(x) && ids + {k} <= x.Keys && k !in ids && FirstAmong(x, ids, m)
    ensures FirstAmong(x, ids + {k}, if Before(x[k], k, x[m], m) then k else m)
  {
    BeforeIsOrder(x[k], k, x[m], m, x[m], m);
    if Before(x[k], k, x[m], m) {
      forall j | j in ids && j != m ensures Before(x[k], k, x[j], j) { BeforeIsOrder(x[k], k, x[m], m, x[j], j); }
    }
  }

  method First(x: Index, ids: set<nat>) returns (first: nat)
    requires AllOrdered(x) && ids <= x.Keys && ids != {}
    ensures FirstAmong(x, ids, first)
  {
    first :| first in ids;
    var seen, todo := {first}, ids - {first};
    while todo != {}
      invariant seen + todo == ids && seen !! todo && FirstAmong(x, seen, first)
    {
      var k :| k in todo;
      AddToFirst(x, seen, first, k);
      if Before(x[k], k, x[first], first) { first := k; }
      seen, todo := seen + {k}, todo - {k};
    }
  }

  lemma {:induction false} FirstExists(x: Index, ids: set<nat>)
    requires AllOrdered(x) && ids <= x.Keys && ids != {}
    ensures exists m :: FirstAmong(x, ids, m)
    decreases ids
  {
    var k :| k in ids;
    var rest := ids - {k};
    assert ids == rest + {k};
    if rest == {} {
      assert FirstAmong(x, ids, k);
    } else {
      FirstExists(x, rest);
      var m :| FirstAmong(x, rest, m);
      AddToFirst(x, rest, m, k);
    }
  }
}
