/** The list page's filter-editing helpers (`toggleRoomFilter`,
    `toggleStyleFilter`, `setPriceFilter`, `clearAllFilters`,
    `hasActiveFilters`), the room and style option lists offered to the user,
    and the choice between the empty-state message and the product cards. */
module ProductList {
  import opened Types
  import opened Ordering
  import Catalogue

  /** `list.filter(y => y !== x)`: every occurrence of `x` removed, order kept. */
  function RemoveAll(list: seq<string>, x: string): (r: seq<string>)
    ensures |r| <= |list|
    ensures forall y :: y in r <==> y in list && y != x
  {
    if list == [] then []
    else if list[0] == x then RemoveAll(list[1..], x)
    else [list[0]] + RemoveAll(list[1..], x)
  }

  /** Removes the entry when it is present, appends it at the end otherwise. */
  function ToggleEntry(list: seq<string>, x: string): seq<string>
  {
    if x in list then RemoveAll(list, x) else list + [x]
  }

  function ToggleRoomFilter(filters: FilterOptions, room: string): (r: FilterOptions)
    ensures r.style == filters.style && r.priceRange == filters.priceRange
    ensures room in r.room <==> room !in filters.room
    ensures forall y :: y != room ==> (y in r.room <==> y in filters.room)
  {
    filters.(room := ToggleEntry(filters.room, room))
  }

  function ToggleStyleFilter(filters: FilterOptions, style: string): (r: FilterOptions)
    ensures r.room == filters.room && r.priceRange == filters.priceRange
    ensures style in r.style <==> style !in filters.style
    ensures forall y :: y != style ==> (y in r.style <==> y in filters.style)
  {
    filters.(style := ToggleEntry(filters.style, style))
  }

  /** Choosing the active bucket again clears it; choosing another bucket replaces it. */
  function SetPriceFilter(filters: FilterOptions, priceRange: string): (r: FilterOptions)
    ensures r.room == filters.room && r.style == filters.style
    ensures r.priceRange == None <==> filters.priceRange == Some(priceRange)
    ensures r.priceRange != None ==> r.priceRange == Some(priceRange)
  {
    filters.(priceRange := if filters.priceRange == Some(priceRange) then None else Some(priceRange))
  }

  function ClearAllFilters(): FilterOptions
  {
    FilterOptions([], [], None)
  }

  /** A null or empty price range is falsy. */
  predicate Truthy(range: Option<string>)
  {
    range.Some? && range.value != ""
  }

  predicate HasActiveFilters(filters: FilterOptions)
  {
    |filters.room| > 0 || |filters.style| > 0 || Truthy(filters.priceRange)
  }

  lemma {:induction false} RemoveAllAbsent(list: seq<string>, x: string)
    requires x !in list
    ensures RemoveAll(list, x) == list
  {
    if list != [] {
      RemoveAllAbsent(list[1..], x);
      assert list == [list[0]] + list[1..];
    }
  }

  lemma {:induction false} RemoveAllAppended(list: seq<string>, x: string)
    requires x !in list
    ensures RemoveAll(list + [x], x) == list
  {
    if list == [] {
      assert [x][1..] == [];
    } else {
      assert (list + [x])[1..] == list[1..] + [x];
      RemoveAllAppended(list[1..], x);
      assert list == [list[0]] + list[1..];
    }
  }

  /** Each toggle flips the membership of the entry and of nothing else; toggling
      an absent entry appends it, and toggling it again gives back the list. */
  lemma ToggleEntryCorrect(list: seq<string>, x: string)
    ensures x in ToggleEntry(list, x) <==> x !in list
    ensures forall y :: y != x ==> (y in ToggleEntry(list, x) <==> y in list)
    ensures x in list ==> |ToggleEntry(list, x)| < |list|
    ensures x !in list ==> ToggleEntry(list, x) == list + [x]
    ensures x !in list ==> ToggleEntry(ToggleEntry(list, x), x) == list
  {
    if x in list {
      RemoveAllShrinks(list, x);
    } else {
      RemoveAllAppended(list, x);
    }
  }

  lemma {:induction false} RemoveAllShrinks(list: seq<string>, x: string)
    requires x in list
    ensures |RemoveAll(list, x)| < |list|
  {
    if list[0] != x {
      RemoveAllShrinks(list[1..], x);
    }
  }

  /** Toggling a room that is not selected, twice, restores the filters. */
  lemma ToggleRoomTwice(filters: FilterOptions, room: string)
    requires room !in filters.room
    ensures ToggleRoomFilter(ToggleRoomFilter(filters, room), room) == filters
  {
    ToggleEntryCorrect(filters.room, room);
  }

  lemma ToggleStyleTwice(filters: FilterOptions, style: string)
    requires style !in filters.style
    ensures ToggleStyleFilter(ToggleStyleFilter(filters, style), style) == filters
  {
    ToggleEntryCorrect(filters.style, style);
  }

  /** Only bucket keys are ever chosen, so at most one bucket (and never an
      unknown range) is active, whatever sequence of choices led there. */
  lemma SetPriceFilterKeepsBucket(filters: FilterOptions, priceRange: string)
    requires filters.priceRange == None || filters.priceRange.value in Catalogue.PriceBuckets
    requires priceRange in Catalogue.PriceBuckets
    ensures var r := SetPriceFilter(filters, priceRange);
            r.priceRange == None || r.priceRange.value in Catalogue.PriceBuckets
  {
  }

  /** With no active filter, the list is the search result alone. */
  lemma InactiveFiltersSearchOnly(catalogue: seq<Product>, term: string, filters: FilterOptions)
    requires !HasActiveFilters(filters)
    ensures Catalogue.Visible(catalogue, term, filters) == Catalogue.Visible(catalogue, term, ClearAllFilters())
    ensures forall p :: p in Catalogue.Visible(catalogue, term, filters)
                        <==> p in catalogue && Catalogue.MatchesSearch(p, term)
  {
    if filters.priceRange.Some? {
      assert filters.priceRange.value == "";
      Catalogue.UnrecognisedRangeIsNoConstraint(catalogue, term, filters, "");
      assert filters == filters.(priceRange := Some(""));
    }
    assert filters.(priceRange := None) == ClearAllFilters();
  }

  /** After "clear all" nothing is active, and with an empty search every product is listed. */
  lemma ClearAllFiltersCorrect(catalogue: seq<Product>)
    ensures !HasActiveFilters(ClearAllFilters())
    ensures Catalogue.Visible(catalogue, "", ClearAllFilters()) == catalogue
  {
    Catalogue.NoConstraintShowsAll(catalogue);
  }

  /** `[...new Set(values)].sort()`. */
  function Options(values: seq<string>): seq<string>
  {
    SortBy(Dedup(values), CodeUnitLe)
  }

  function RoomOptions(products: seq<Product>): seq<string>
  {
    Options(seq(|products|, i requires 0 <= i < |products| => products[i].room))
  }

  function StyleOptions(products: seq<Product>): seq<string>
  {
    Options(seq(|products|, i requires 0 <= i < |products| => products[i].style))
  }

  /** The options are strictly increasing in code-unit order (so free of
      duplicates) and are exactly the values that occur. */
  lemma OptionsCorrect(values: seq<string>)
    ensures var r := Options(values);
            && (forall i, j :: 0 <= i < j < |r| ==> CodeUnitLe(r[i], r[j]) && r[i] != r[j])
            && (forall x :: x in r <==> x in values)
  {
    var d := Dedup(values);
    var r := Options(values);
    CodeUnitLeIsTotalPreorder();
    SortBySorted(d, CodeUnitLe);
    SortByDistinct(d, CodeUnitLe);
    forall x ensures x in r <==> x in values {
      assert x in r <==> x in multiset(r);
      assert x in d <==> x in multiset(d);
    }
  }

  lemma RoomOptionsCorrect(products: seq<Product>)
    ensures var r := RoomOptions(products);
            && (forall i, j :: 0 <= i < j < |r| ==> CodeUnitLe(r[i], r[j]) && r[i] != r[j])
            && (forall p :: p in products ==> p.room in r)
            && (forall x :: x in r ==> exists p :: p in products && p.room == x)
  {
    var rooms := seq(|products|, i requires 0 <= i < |products| => products[i].room);
    OptionsCorrect(rooms);
    forall p | p in products ensures p.room in rooms {
      var i :| 0 <= i < |products| && products[i] == p;
      assert rooms[i] == p.room;
    }
    forall x | x in RoomOptions(products) ensures exists p :: p in products && p.room == x {
      var i :| 0 <= i < |rooms| && rooms[i] == x;
      assert products[i] in products;
    }
  }

  lemma StyleOptionsCorrect(products: seq<Product>)
    ensures var r := StyleOptions(products);
            && (forall i, j :: 0 <= i < j < |r| ==> CodeUnitLe(r[i], r[j]) && r[i] != r[j])
            && (forall p :: p in products ==> p.style in r)
            && (forall x :: x in r ==> exists p :: p in products && p.style == x)
  {
    var styles := seq(|products|, i requires 0 <= i < |products| => products[i].style);
    OptionsCorrect(styles);
    forall p | p in products ensures p.style in styles {
      var i :| 0 <= i < |products| && products[i] == p;
      assert styles[i] == p.style;
    }
    forall x | x in StyleOptions(products) ensures exists p :: p in products && p.style == x {
      var i :| 0 <= i < |styles| && styles[i] == x;
      assert products[i] in products;
    }
  }

  /** The products shown on the list page are exactly the catalogue entries
      passing the current search and filters, whatever the sort. */
  lemma ShownProducts(
    catalogue: seq<Product>, term: string, filters: FilterOptions,
    sort: SortOption, collation: (string, string) -> bool)
    ensures forall p :: p in Catalogue.FilteredAndSorted(catalogue, term, filters, sort, collation)
                        <==> p in catalogue && Catalogue.Matches(p, term, filters)
  {
    var shown := Catalogue.FilteredAndSorted(catalogue, term, filters, sort, collation);
    var filtered := Catalogue.Visible(catalogue, term, filters);
    forall p ensures p in shown <==> p in filtered {
      assert p in shown <==> p in multiset(shown);
      assert p in filtered <==> p in multiset(filtered);
    }
  }

  /** The filter panel is handed the list being shown, not the catalogue: a
      room is offered exactly when some product passing the current search and
      filters is in it. Hence, once rooms are selected, only selected rooms stay
      on offer, and no further room can be picked from the panel. */
  lemma ShownRoomOptions(
    catalogue: seq<Product>, term: string, filters: FilterOptions,
    sort: SortOption, collation: (string, string) -> bool)
    ensures var r := RoomOptions(Catalogue.FilteredAndSorted(catalogue, term, filters, sort, collation));
            && (forall x :: x in r <==> exists p :: p in catalogue && Catalogue.Matches(p, term, filters) && p.room == x)
            && (|filters.room| > 0 ==> forall x :: x in r ==> x in filters.room)
  {
    var shown := Catalogue.FilteredAndSorted(catalogue, term, filters, sort, collation);
    ShownProducts(catalogue, term, filters, sort, collation);
    RoomOptionsCorrect(shown);
  }

  /** The same for styles: offered exactly when a shown product has that
      style, so selected styles hide every other style. */
  lemma ShownStyleOptions(
    catalogue: seq<Product>, term: string, filters: FilterOptions,
    sort: SortOption, collation: (string, string) -> bool)
    ensures var r := StyleOptions(Catalogue.FilteredAndSorted(catalogue, term, filters, sort, collation));
            && (forall x :: x in r <==> exists p :: p in catalogue && Catalogue.Matches(p, term, filters) && p.style == x)
            && (|filters.style| > 0 ==> forall x :: x in r ==> x in filters.style)
  {
    var shown := Catalogue.FilteredAndSorted(catalogue, term, filters, sort, collation);
    ShownProducts(catalogue, term, filters, sort, collation);
    StyleOptionsCorrect(shown);
  }

  /** One product card: the product and whether it is a favourite. */
  datatype Card = Card(product: Product, isFavorite: bool)

  datatype ListContent = EmptyMessage | Cards(cards: seq<Card>)

  /** The list area: the empty-state message for no products, else one card per product. */
  function Content(products: seq<Product>, favorites: set<int>): (c: ListContent)
    ensures c.EmptyMessage? <==> |products| == 0
    ensures c.Cards? ==> |c.cards| == |products|
                         && forall i :: 0 <= i < |products| ==>
                              c.cards[i].product == products[i]
                              && (c.cards[i].isFavorite <==> products[i].id in favorites)
  {
    if |products| == 0 then EmptyMessage
    else Cards(seq(|products|, i requires 0 <= i < |products| =>
                                 Card(products[i], products[i].id in favorites)))
  }
}
