/** Price arithmetic (libraries/chain/protocol/asset.cpp): comparison by cross multiplication and products
    that round down. */
module Prices {
  import opened Common
  import opened Arithmetic

  type AssetId = nat

  const CORE: AssetId := 0

  /** base/quote: what is sold for what is wanted. */
  datatype Price = Price(base: nat, baseId: AssetId, quote: nat, quoteId: AssetId)

  function Inverse(p: Price): Price {
    Price(p.quote, p.quoteId, p.base, p.baseId)
  }

  predicate SamePair(p: Price, q: Price) {
    p.baseId == q.baseId && p.quoteId == q.quoteId
  }

  predicate Equal(p: Price, q: Price) {
    SamePair(p, q) && q.quote * p.base == p.quote * q.base
  }

  predicate Less(p: Price, q: Price) {
    if p.baseId != q.baseId then p.baseId < q.baseId
    else if p.quoteId != q.quoteId then p.quoteId < q.quoteId
    else q.quote * p.base < p.quote * q.base
  }

  predicate AtLeast(p: Price, q: Price) {
    !Less(p, q)
  }

  predicate Positive(p: Price) {
    p.base > 0 && p.quote > 0 && p.baseId != p.quoteId
  }

  /** asset * price: converts in either direction, rounding down; None when the code throws. */
  function Times(n: nat, id: AssetId, p: Price): Option<nat> {
    if id == p.baseId then
      if p.base > 0 && n * p.quote / p.base <= MAX_SHARE_SUPPLY then Some(n * p.quote / p.base) else None
    else if id == p.quoteId then
      if p.quote > 0 && n * p.base / p.quote <= MAX_SHARE_SUPPLY then Some(n * p.base / p.quote) else None
    else None
  }

  // ---------- the order of prices ----------

  /** As long as there is something to sell, the comparison is a total preorder whose equivalence is `Equal`; a quote
      of nothing makes the highest price. */
  lemma LessIsTransitive(p: Price, q: Price, r: Price)
    requires p.base > 0 && q.base > 0 && r.base > 0
    ensures AtLeast(p, q) && AtLeast(q, r) ==> AtLeast(p, r)
    ensures AtLeast(p, q) || AtLeast(q, p)
    ensures AtLeast(p, q) && AtLeast(q, p) <==> Equal(p, q)
  {
    if SamePair(p, q) && SamePair(q, r) && AtLeast(p, q) && AtLeast(q, r) {
      // p.quote/p.base <= q.quote/q.base <= r.quote/r.base
      MulMono(p.quote * q.base, q.quote * p.base, r.base);
      MulMono(q.quote * r.base, r.quote * q.base, p.base);
      Associate(p.quote, q.base, r.base);
      Associate(q.quote, p.base, r.base);
      Associate(r.quote, q.base, p.base);
      CancelFactor(p.quote * r.base, r.quote * p.base, q.base);
    }
  }

  /** Turning both prices round turns the comparison round. */
  lemma InverseReverses(p: Price, q: Price)
    requires p.baseId == q.quoteId && p.quoteId == q.baseId
    ensures AtLeast(p, Inverse(q)) <==> AtLeast(q, Inverse(p))
  {
  }

  // ---------- rounding ----------

  /** The product rounds down: it is the most whose value at the price does not exceed the amount's. */
  lemma TimesIsLargest(n: nat, p: Price, m: nat)
    requires p.base > 0
    ensures m * p.base <= n * p.quote <==> m <= n * p.quote / p.base
  {
    DivIsLargest(n * p.quote, p.base, m);
  }

  lemma TimesGrows(m: nat, n: nat, quote: nat, base: nat)
    requires m <= n && base > 0
    ensures m * quote / base <= n * quote / base
  {
    MulMono(m, n, quote);
    DivMono(m * quote, n * quote, base);
  }

  /** Converting and converting back never gains. */
  lemma ThereAndBackNeverGains(n: nat, p: Price)
    requires Positive(p)
    ensures (n * p.quote / p.base) * p.base / p.quote <= n
  {
    var m := n * p.quote / p.base;
    DivIsLargest(n * p.quote, p.base, m);
    DivMono(m * p.base, n * p.quote, p.quote);
    DivUnique(n * p.quote, p.quote, n, 0);
  }
}
