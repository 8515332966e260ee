/** The catalogue filter/sort engine behind `filteredAndSortedProducts`: a
    case-insensitive name search, room and style filters (any of the selected,
    or everything when none is selected), one half-open price bucket, and then
    one of three orders. The catalogue is a parameter; so is the name collation
    that `localeCompare` stands for. */
module Catalogue {
  import opened Types
  import opened Ordering
  import Text

  /** The four bucket keys offered by the price filter. */
  const PriceBuckets: seq<string> := ["under-50k", "50k-100k", "100k-200k", "over-200k"]

  /** The lower-cased name includes the lower-cased term. */
  predicate MatchesSearch(p: Product, term: string)
  {
    Text.Contains(Text.ToLower(p.name), Text.ToLower(term))
  }

  /** An empty selection imposes nothing; otherwise the value must be one of those selected. */
  predicate MatchesAny(value: string, selected: seq<string>)
  {
    |selected| == 0 || value in selected
  }

  /** The price-bucket switch. A null or empty range is falsy and skips the switch;
      an unrecognised string falls through the switch, which has no default. */
  predicate MatchesPrice(priceValue: int, range: Option<string>)
  {
    match range
    case None => true
    case Some(r) =>
      if r == "under-50k" then priceValue < 50000
      else if r == "50k-100k" then 50000 <= priceValue < 100000
      else if r == "100k-200k" then 100000 <= priceValue < 200000
      else if r == "over-200k" then 200000 <= priceValue
      else true
  }

  predicate Matches(p: Product, term: string, filters: FilterOptions)
  {
    && MatchesSearch(p, term)
    && MatchesAny(p.room, filters.room)
    && MatchesAny(p.style, filters.style)
    && MatchesPrice(p.priceValue, filters.priceRange)
  }

  /** `PRODUCTS.filter(...)`: the catalogue entries that pass all four checks, in catalogue order. */
  function Visible(catalogue: seq<Product>, term: string, filters: FilterOptions): (r: seq<Product>)
    ensures |r| <= |catalogue|
    ensures forall p :: p in r <==> p in catalogue && Matches(p, term, filters)
  {
    if catalogue == [] then []
    else
      (if Matches(catalogue[0], term, filters) then [catalogue[0]] else [])
      + Visible(catalogue[1..], term, filters)
  }

  /** The comparator `(a, b) => a.priceValue - b.priceValue`, as an order. */
  predicate PriceLe(a: Product, b: Product)
  {
    a.priceValue <= b.priceValue
  }

  /** The comparator `(a, b) => a.name.localeCompare(b.name)`, for a given collation of names. */
  function ByName(collation: (string, string) -> bool): (Product, Product) -> bool
  {
    (a: Product, b: Product) => collation(a.name, b.name)
  }

  /** `filteredAndSortedProducts`. */
  function FilteredAndSorted(
    catalogue: seq<Product>, term: string, filters: FilterOptions,
    sort: SortOption, collation: (string, string) -> bool): (r: seq<Product>)
    ensures multiset(r) == multiset(Visible(catalogue, term, filters))
  {
    var filtered := Visible(catalogue, term, filters);
    match sort
    case AZ => SortBy(filtered, ByName(collation))
    case Price => SortBy(filtered, PriceLe)
    case Default => filtered
  }

  /** Filtering distributes over concatenation: the result keeps catalogue order. */
  lemma {:induction false} VisibleAppend(a: seq<Product>, b: seq<Product>, term: string, filters: FilterOptions)
    ensures Visible(a + b, term, filters) == Visible(a, term, filters) + Visible(b, term, filters)
  {
    if a == [] {
      assert a + b == b;
    } else {
      assert (a + b)[1..] == a[1..] + b;
      VisibleAppend(a[1..], b, term, filters);
    }
  }

  /** Each catalogue entry appears in the result exactly as often as in the
      catalogue when it passes the checks, and not at all otherwise. */
  lemma {:induction false} VisibleCounts(catalogue: seq<Product>, term: string, filters: FilterOptions, p: Product)
    ensures multiset(Visible(catalogue, term, filters))[p]
         == if Matches(p, term, filters) then multiset(catalogue)[p] else 0
  {
    if catalogue != [] {
      VisibleCounts(catalogue[1..], term, filters, p);
      assert catalogue == [catalogue[0]] + catalogue[1..];
    }
  }

  /** With an empty search term, no room, no style and no price range, every product is shown, in order. */
  lemma {:induction false} NoConstraintShowsAll(catalogue: seq<Product>)
    ensures Visible(catalogue, "", FilterOptions([], [], None)) == catalogue
  {
    if catalogue != [] {
      Text.ContainsEmpty(Text.ToLower(catalogue[0].name));
      assert Text.ToLower("") == "";
      NoConstraintShowsAll(catalogue[1..]);
    }
  }

  /** A price range that is none of the four buckets (including the empty string) filters nothing out. */
  lemma {:induction false} UnrecognisedRangeIsNoConstraint(
    catalogue: seq<Product>, term: string, filters: FilterOptions, range: string)
    requires range !in PriceBuckets
    ensures Visible(catalogue, term, filters.(priceRange := Some(range)))
         == Visible(catalogue, term, filters.(priceRange := None))
  {
    if catalogue != [] {
      UnrecognisedRangeIsNoConstraint(catalogue[1..], term, filters, range);
    }
  }

  /** The bucket a price falls in. */
  function BucketOf(priceValue: int): (b: string)
    ensures b in PriceBuckets
  {
    if priceValue < 50000 then "under-50k"
    else if priceValue < 100000 then "50k-100k"
    else if priceValue < 200000 then "100k-200k"
    else "over-200k"
  }

  /** The four half-open buckets partition the prices: each price passes exactly one bucket. */
  lemma BucketsPartition(priceValue: int, b: string)
    requires b in PriceBuckets
    ensures MatchesPrice(priceValue, Some(b)) <==> b == BucketOf(priceValue)
  {
  }

  /** The search ignores the case of the term. */
  lemma SearchIgnoresTermCase(p: Product, term: string)
    ensures MatchesSearch(p, Text.ToLower(term)) == MatchesSearch(p, term)
  {
    Text.ToLowerIdempotent(term);
  }

  /** Searching "LED" finds a product named "Smart LED Bulb Set". */
  lemma SearchExample(p: Product)
    requires p.name == "Smart LED Bulb Set"
    ensures MatchesSearch(p, "LED")
  {
    var name := Text.ToLower(p.name);
    var term := Text.ToLower("LED");
    assert term == "led";
    assert name[6..9] == "led";
    assert Text.OccursAt(name, term, 6);
  }

  lemma PriceLeIsTotalPreorder()
    ensures TotalPreorder(PriceLe)
  {
  }

  lemma ByNameIsTotalPreorder(collation: (string, string) -> bool)
    requires TotalPreorder(collation)
    ensures TotalPreorder(ByName(collation))
  {
    var le := ByName(collation);
    forall a: Product, b: Product ensures le(a, b) || le(b, a) {
      assert collation(a.name, b.name) || collation(b.name, a.name);
    }
    forall a: Product, b: Product, c: Product | le(a, b) && le(b, c) ensures le(a, c) {
      assert collation(a.name, b.name) && collation(b.name, c.name);
    }
  }

  /** The result is exactly the products that pass the checks. The default order
      is catalogue order; "price" and "a-z" are stable sorts of that list by
      price and by name. */
  lemma FilteredAndSortedCorrect(
    catalogue: seq<Product>, term: string, filters: FilterOptions,
    sort: SortOption, collation: (string, string) -> bool)
    requires sort == AZ ==> TotalPreorder(collation)
    ensures var r := FilteredAndSorted(catalogue, term, filters, sort, collation);
            var filtered := Visible(catalogue, term, filters);
            && multiset(r) == multiset(filtered)
            && (forall p :: p in r <==> p in catalogue && Matches(p, term, filters))
            && (sort == Default ==> r == filtered)
            && (sort == Price ==> Sorted(r, PriceLe) && StablePermutation(r, filtered, PriceLe))
            && (sort == AZ ==> Sorted(r, ByName(collation))
                               && StablePermutation(r, filtered, ByName(collation)))
  {
    var r := FilteredAndSorted(catalogue, term, filters, sort, collation);
    var filtered := Visible(catalogue, term, filters);
    forall p ensures p in r <==> p in filtered {
      assert p in r <==> p in multiset(r);
    }
    match sort
    case Default =>
    case Price =>
      PriceLeIsTotalPreorder();
      SortBySorted(filtered, PriceLe);
      SortByStable(filtered, PriceLe);
    case AZ =>
      ByNameIsTotalPreorder(collation);
      SortBySorted(filtered, ByName(collation));
      SortByStable(filtered, ByName(collation));
  }
}
