/**
 * The product listing's price filter. It declares two number filters on
 * `price`: `price_from` with the `gte` lookup and `price_to` with the `lte`
 * lookup. The filter set applies its filters one after another in declaration
 * order, and a filter whose parameter is absent leaves the queryset as it is.
 */
module ProductFilter {
  import opened Wrappers

  /** A product row as the filter sees it; prices are decimals, compared exactly. */
  datatype Product = Product(id: nat, title: string, description: string, price: real)

  /** The two lookups the filter declares. */
  datatype Lookup = Gte | Lte

  /** The filter's parameters from the query string; an absent parameter is None. */
  datatype PriceQuery = PriceQuery(priceFrom: Option<real>, priceTo: Option<real>)

  /** One lookup compares a product's price with the given bound. */
  predicate Satisfies(price: real, lookup: Lookup, bound: real) {
    match lookup
    case Gte => price >= bound
    case Lte => price <= bound
  }

  /** The rows of a queryset whose price passes one lookup, in their order in the sequence. */
  function Keep(ps: seq<Product>, lookup: Lookup, bound: real): (r: seq<Product>)
    ensures |r| <= |ps|
    ensures forall p :: p in r <==> p in ps && Satisfies(p.price, lookup, bound)
  {
    if ps == [] then []
    else (if Satisfies(ps[0].price, lookup, bound) then [ps[0]] else []) + Keep(ps[1..], lookup, bound)
  }

  /** One number filter: narrows the queryset when its parameter is given, leaves it alone otherwise. */
  function ApplyBound(ps: seq<Product>, lookup: Lookup, value: Option<real>): (r: seq<Product>)
    ensures value.None? ==> r == ps
    ensures forall p :: p in r <==> p in ps && (value.Some? ==> Satisfies(p.price, lookup, value.value))
  {
    match value
    case None => ps
    case Some(bound) => Keep(ps, lookup, bound)
  }

  /** The filter set's queryset: `price_from` applied first, then `price_to`. */
  function FilterQueryset(ps: seq<Product>, q: PriceQuery): (r: seq<Product>)
    ensures |r| <= |ps|
    ensures forall p :: p in r <==> p in ps && InRange(q, p.price)
  {
    ApplyBound(ApplyBound(ps, Gte, q.priceFrom), Lte, q.priceTo)
  }

  /** The intended meaning of the query: both bounds inclusive, an absent bound imposing nothing. */
  predicate InRange(q: PriceQuery, price: real) {
    && (q.priceFrom.Some? ==> price >= q.priceFrom.value)
    && (q.priceTo.Some? ==> price <= q.priceTo.value)
  }

  /** Reference definition: a single pass keeping the rows whose price is in range. */
  function Select(ps: seq<Product>, q: PriceQuery): (r: seq<Product>)
    ensures |r| <= |ps|
    ensures forall p :: p in r <==> p in ps && InRange(q, p.price)
  {
    if ps == [] then []
    else (if InRange(q, ps[0].price) then [ps[0]] else []) + Select(ps[1..], q)
  }

  /** Filtering a concatenation filters each part and keeps the parts in sequence order. */
  lemma {:induction false} KeepAppend(xs: seq<Product>, ys: seq<Product>, lookup: Lookup, bound: real)
    ensures Keep(xs + ys, lookup, bound) == Keep(xs, lookup, bound) + Keep(ys, lookup, bound)
  {
    if xs != [] {
      assert (xs + ys)[0] == xs[0];
      assert (xs + ys)[1..] == xs[1..] + ys;
      KeepAppend(xs[1..], ys, lookup, bound);
    } else {
      assert xs + ys == ys;
    }
  }

  /** Applying the two declared filters in turn is the single-pass range selection. */
  lemma {:induction false} FilterIsSelect(ps: seq<Product>, q: PriceQuery)
    ensures FilterQueryset(ps, q) == Select(ps, q)
  {
    if ps != [] {
      FilterIsSelect(ps[1..], q);
      var head := ApplyBound([ps[0]], Gte, q.priceFrom);
      var lower := ApplyBound(ps, Gte, q.priceFrom);
      match q.priceFrom {
        case None =>
        case Some(a) =>
          assert ps == [ps[0]] + ps[1..];
          KeepAppend([ps[0]], ps[1..], Gte, a);
      }
      assert lower == head + ApplyBound(ps[1..], Gte, q.priceFrom);
      match q.priceTo {
        case None =>
        case Some(b) =>
          KeepAppend(head, ApplyBound(ps[1..], Gte, q.priceFrom), Lte, b);
      }
    }
  }

  /** The filter distributes over concatenation, so it keeps the rows in sequence order. */
  lemma FilterPreservesOrder(xs: seq<Product>, ys: seq<Product>, q: PriceQuery)
    ensures FilterQueryset(xs + ys, q) == FilterQueryset(xs, q) + FilterQueryset(ys, q)
  {
    match q.priceFrom {
      case None =>
      case Some(a) => KeepAppend(xs, ys, Gte, a);
    }
    match q.priceTo {
      case None =>
      case Some(b) => KeepAppend(ApplyBound(xs, Gte, q.priceFrom), ApplyBound(ys, Gte, q.priceFrom), Lte, b);
    }
  }

  /** With neither parameter given, the queryset is returned unchanged. */
  lemma NoBoundsKeepsAll(ps: seq<Product>)
    ensures FilterQueryset(ps, PriceQuery(None, None)) == ps
  {
  }

  /** Both bounds are inclusive: a product priced at either end of a non-empty range passes. */
  lemma BoundsAreInclusive(ps: seq<Product>, p: Product, low: real, high: real)
    requires low <= high
    requires p in ps && (p.price == low || p.price == high)
    ensures p in FilterQueryset(ps, PriceQuery(Some(low), Some(high)))
  {
  }

  /** A lower bound above the upper bound selects nothing. */
  lemma EmptyRangeSelectsNothing(ps: seq<Product>, low: real, high: real)
    requires low > high
    ensures FilterQueryset(ps, PriceQuery(Some(low), Some(high))) == []
  {
    FilterIsSelect(ps, PriceQuery(Some(low), Some(high)));
    SelectEmpty(ps, PriceQuery(Some(low), Some(high)));
  }

  /** A query that no price satisfies selects nothing. */
  lemma {:induction false} SelectEmpty(ps: seq<Product>, q: PriceQuery)
    requires forall price :: !InRange(q, price)
    ensures Select(ps, q) == []
  {
    if ps != [] {
      SelectEmpty(ps[1..], q);
    }
  }

  /** Filtering an already filtered queryset again changes nothing. */
  lemma {:induction false} FilterIdempotent(ps: seq<Product>, q: PriceQuery)
    ensures FilterQueryset(FilterQueryset(ps, q), q) == FilterQueryset(ps, q)
  {
    FilterIsSelect(ps, q);
    FilterIsSelect(Select(ps, q), q);
    SelectIdempotent(ps, q);
  }

  lemma {:induction false} SelectIdempotent(ps: seq<Product>, q: PriceQuery)
    ensures Select(Select(ps, q), q) == Select(ps, q)
  {
    if ps != [] {
      SelectIdempotent(ps[1..], q);
      var s := Select(ps, q);
      if InRange(q, ps[0].price) {
        assert s == [ps[0]] + Select(ps[1..], q);
        assert s[0] == ps[0] && s[1..] == Select(ps[1..], q);
        assert Select(s, q) == [ps[0]] + Select(s[1..], q);
      } else {
        assert s == Select(ps[1..], q);
      }
    }
  }

  /** The order in which the two filters are applied does not change the result. */
  lemma {:induction false} BoundOrderIrrelevant(ps: seq<Product>, q: PriceQuery)
    ensures ApplyBound(ApplyBound(ps, Lte, q.priceTo), Gte, q.priceFrom) == FilterQueryset(ps, q)
  {
    if ps != [] {
      BoundOrderIrrelevant(ps[1..], q);
      assert ps == [ps[0]] + ps[1..];
      FilterPreservesOrder([ps[0]], ps[1..], q);
      match q.priceTo {
        case None =>
        case Some(b) => KeepAppend([ps[0]], ps[1..], Lte, b);
      }
      var mid := ApplyBound(ps, Lte, q.priceTo);
      assert mid == ApplyBound([ps[0]], Lte, q.priceTo) + ApplyBound(ps[1..], Lte, q.priceTo);
      match q.priceFrom {
        case None =>
        case Some(a) => KeepAppend(ApplyBound([ps[0]], Lte, q.priceTo), ApplyBound(ps[1..], Lte, q.priceTo), Gte, a);
      }
    }
  }
}
