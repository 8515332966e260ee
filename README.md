# Lighting storefront: a model of its state logic

The storefront is a single-page React shop for lighting products. One store
(the `useAppState` hook, and an inline copy of the same logic in the `App`
component) holds the cart, the favourites, the search term, the filters and
sort option, the selected product, the screen shown, the customer's address
and an "added to cart" overlay. Screen handlers (`useNavigation`) move
between the product list, the product page, the basket, checkout, payment,
order review and the order confirmation. Pages keep small pieces of local
state: the product page's quantity stepper, the checkout form, and the room
analyser's photo and mock analysis.

This project models that logic in Dafny:

- `types.dfy` (`Types`): products, cart lines, the address, filters, sort
  options and screens, and how a screen name is read back.
- `text.dfy` (`Text`): lower-casing and substring search.
- `ordering.dfy` (`Ordering`): the stable sort JavaScript's `Array.prototype.sort`
  performs, proved sorted, a permutation and stable; de-duplication.
- `catalogue.dfy` (`Catalogue`): the filter and sort engine behind
  `filteredAndSortedProducts`.
- `cart.dfy` (`Cart`): the cart and favourites updates as functions on values,
  with their effect on ids, per-product quantities and the cart count.
- `app_state.dfy` (`AppStore`): the store as a class whose methods update its
  fields; each method's new state is stated as the old state with the
  changed fields replaced.
- `navigation.dfy` (`Navigation`): every screen handler as a transition on the
  store, and a class that applies them to a live store.
- `product_list.dfy`, `basket.dfy`, `confirmation.dfy`, `product_detail.dfy`,
  `checkout.dfy`, `room_analyzer.dfy`: the page logic of the list page, the
  basket, the order review page, the product page, the checkout form and the
  room analyser.

## Model

| member | source | states |
|---|---|---|
| Types.ParseViewMode | src/hooks/useNavigation.ts:78-81 | reading a screen name (`screen as ViewMode`) keeps the name: the screen obtained is named by exactly the string given, known or not |
| Types.ParseNameRoundTrip | src/types/index.ts:27-38 | each of the eleven screens, named and read back, is the same screen |
| Types.FirstImage | src/hooks/useAppState.ts:105-110 | `images[0]` is present exactly when the product has an image, and is then the first one |
| Text.ToLower | src/hooks/useAppState.ts:50-52 | lower-casing keeps the length, maps each character on its own, and leaves no upper-case ASCII letter |
| Text.ToLowerIdempotent | src/hooks/useAppState.ts:50-52 | lower-casing an already lower-cased string changes nothing |
| Text.ContainsEmpty | src/hooks/useAppState.ts:50-52 | every name includes the empty search term, so an empty search hides nothing |
| Ordering.SortBySorted | src/hooks/useAppState.ts:84-91 | for any total preorder the sorted list is ordered and is a permutation of its input |
| Ordering.SortByStable | src/hooks/useAppState.ts:84-91 | sorting is stable: elements that compare equal keep their input order |
| Ordering.SortBySortedIsIdentity | src/hooks/useAppState.ts:84-91 | an already ordered list is returned unchanged |
| Ordering.SortByDistinct | src/components/ProductListPage.tsx:442-443 | sorting a duplicate-free list keeps it duplicate-free |
| Ordering.Dedup | src/components/ProductListPage.tsx:442-443 | `[...new Set(values)]` has no duplicates and holds exactly the values of its input |
| Ordering.CodeUnitLeIsTotalPreorder | src/components/ProductListPage.tsx:442-443 | the default string order of `sort()` is total, transitive and antisymmetric |
| Catalogue.Visible | src/src/Code-component-11-13.tsx:68-103 | a product is listed exactly when it is in the catalogue and passes the search, room, style and price checks; the list is never longer than the catalogue |
| Catalogue.FilteredAndSorted | src/src/Code-component-11-13.tsx:105-116 | the sorted list holds exactly the filtered products, each as often as in the filtered list |
| Catalogue.FilteredAndSortedCorrect | src/hooks/useAppState.ts:47-92 | the list holds exactly the matching products; default order is catalogue order; "price" and "a-z" are sorted and stable with respect to the filtered list |
| Catalogue.VisibleAppend | src/hooks/useAppState.ts:48-82 | filtering keeps catalogue order: it distributes over concatenation |
| Catalogue.VisibleCounts | src/hooks/useAppState.ts:48-82 | a matching product appears as often as in the catalogue, a failing one not at all |
| Catalogue.NoConstraintShowsAll | src/hooks/useAppState.ts:48-82 | with an empty search, no room, no style and no price range, the whole catalogue is listed in order |
| Catalogue.UnrecognisedRangeIsNoConstraint | src/hooks/useAppState.ts:63-79 | a price range that is not one of the four bucket keys (the empty string included) filters nothing out |
| Catalogue.BucketOf | src/hooks/useAppState.ts:66-77 | every price falls in one of the four bucket keys |
| Catalogue.BucketsPartition | src/hooks/useAppState.ts:66-77 | a price passes a bucket if and only if that bucket is the price's own: the buckets partition the prices |
| Catalogue.SearchIgnoresTermCase | src/hooks/useAppState.ts:50-52 | the search gives the same answer for a term and its lower-cased form |
| Catalogue.SearchExample | src/hooks/useAppState.ts:50-52 | searching "LED" finds the product named "Smart LED Bulb Set" |
| Catalogue.PriceLeIsTotalPreorder | src/hooks/useAppState.ts:88 | the price comparator is a total preorder, so the price sort is well defined |
| Catalogue.ByNameIsTotalPreorder | src/hooks/useAppState.ts:86 | the name comparator is a total preorder whenever the collation is |
| Cart.FindById | src/hooks/useAppState.ts:124 | `find` yields nothing exactly when no catalogue entry has the id, and otherwise a catalogue entry |
| Cart.TargetProduct | src/hooks/useAppState.ts:120-129 | a missing or zero id falls back to the selected product; any other id is looked up in the catalogue only |
| Cart.MergeQuantity | src/hooks/useAppState.ts:139-147 | the lines with the id gain the quantity; every other line and the length are unchanged |
| Cart.SetQuantity | src/hooks/useAppState.ts:170-174 | the lines with the id take the quantity; every other line and the length are unchanged |
| Cart.RemoveId | src/hooks/useAppState.ts:165-168 | a line survives exactly when its id differs |
| Cart.Toggle | src/hooks/useAppState.ts:95-103 | the id's membership flips and no other id's membership changes |
| Cart.ToggleTwice | src/src/Code-component-11-13.tsx:119-127 | toggling a favourite twice restores the favourites |
| Cart.AddItemKeepsIdsUnique | src/hooks/useAppState.ts:134-161 | adding keeps at most one line per product and adds the product's id to the ids |
| Cart.AddItemCorrect | src/hooks/useAppState.ts:134-161 | a present product's line grows in place and the others stay; a new product is appended as a snapshot line; that product's quantity and the cart count grow by exactly the amount added; positive quantities stay positive |
| Cart.AddTwiceMerges | src/src/Code-component-11-13.tsx:161-188 | adding one unit of a product twice to an empty cart gives one line of two units |
| Cart.RemoveLineCorrect | src/hooks/useAppState.ts:165-168 | quantity 0 drops the id's line: ids stay unique, the id's quantity becomes 0, others keep theirs, and the count falls by the removed quantity |
| Cart.RemoveIdAt | src/hooks/useAppState.ts:165-168 | with unique ids, removing line i's id removes exactly that line and keeps the others in order |
| Cart.SetLineCorrect | src/hooks/useAppState.ts:169-175 | a non-zero quantity overwrites that id's quantity, leaves other ids' quantities, keeps ids unique, and moves the count by the difference |
| Cart.UpdateQuantityCorrect | src/src/Code-component-11-13.tsx:191-206 | quantity 0 removes the line and keeps the rest; any other quantity overwrites that line in place; an absent id leaves the cart unchanged; ids stay unique |
| Cart.CountReplace | src/hooks/useAppState.ts:45 | replacing one line moves the cart count by the difference of the two quantities |
| Cart.CountDrop | src/hooks/useAppState.ts:45 | dropping one line lowers the cart count by its quantity |
| AppStore.AppState.constructor | src/hooks/useAppState.ts:31-42 | the store starts empty: no cart lines, no favourites, empty search, no filters, the list screen, the empty address, no overlay |
| AppStore.AppState.SetSearchTerm | src/hooks/useAppState.ts:33 | only the search term changes |
| AppStore.AppState.SetSortOption | src/hooks/useAppState.ts:34 | only the sort option changes |
| AppStore.AppState.SetFilters | src/hooks/useAppState.ts:35 | only the filters change |
| AppStore.AppState.SetIsNavOpen | src/src/Code-component-11-13.tsx:299 | only the menu's open flag changes |
| AppStore.AppState.ToggleFavorite | src/hooks/useAppState.ts:95-103 | only the favourites change, and the id's membership flips |
| AppStore.AppState.ShowAddToCartOverlay | src/src/Code-component-11-13.tsx:129-139 | the overlay shows the product's id, name and first image with the quantity; nothing else changes |
| AppStore.AppState.HideOverlay | src/hooks/useAppState.ts:115-117 | only the overlay's visibility is cleared |
| AppStore.AppState.AddToCart | src/hooks/useAppState.ts:120-162 | with no target product nothing changes; otherwise the cart becomes `AddItem` of the old cart and the overlay is shown for the target; the cart count grows by the amount added; ids stay unique |
| AppStore.AppState.UpdateCartItemQuantity | src/hooks/useAppState.ts:164-176 | only the cart changes, to `UpdateQuantity` of the old cart; the id's quantity becomes the new one (0 for removal or an absent id); ids stay unique |
| AppStore.AppState.ResetCustomerInfo | src/hooks/useAppState.ts:178-180 | only the address changes, back to all-empty fields |
| AppStore.AppState.ClearCart | src/hooks/useAppState.ts:182-184 | only the cart changes, to empty, and the count becomes 0 |
| Navigation.Navigator.constructor | src/hooks/useNavigation.ts:10-16 | the handlers act on the given store |
| Navigation.Navigator.HandleProductClick | src/hooks/useNavigation.ts:20-23 | the product becomes selected and the product page is shown |
| Navigation.Navigator.HandleBackToList | src/hooks/useNavigation.ts:25-28 | the list is shown and the selection is cleared |
| Navigation.Navigator.HandleCartClick | src/hooks/useNavigation.ts:31-33 | the basket is shown |
| Navigation.Navigator.HandleBackFromBasket | src/hooks/useNavigation.ts:35-37 | the list is shown, the selection kept |
| Navigation.Navigator.HandleGoToCheckout | src/hooks/useNavigation.ts:40-42 | the checkout is shown |
| Navigation.Navigator.HandleBackFromCheckout | src/hooks/useNavigation.ts:44-46 | the basket is shown |
| Navigation.Navigator.HandleProceedToPayment | src/hooks/useNavigation.ts:48-51 | the submitted address is stored and the payment page is shown |
| Navigation.Navigator.HandleBackFromPayment | src/hooks/useNavigation.ts:53-55 | the checkout is shown |
| Navigation.Navigator.HandleProceedToConfirmation | src/hooks/useNavigation.ts:57-59 | the order review is shown |
| Navigation.Navigator.HandleBackFromConfirmation | src/hooks/useNavigation.ts:61-63 | the payment page is shown |
| Navigation.Navigator.HandleCompletePurchase | src/hooks/useNavigation.ts:65-69 | the cart is emptied (count 0) and the order confirmation is shown |
| Navigation.Navigator.HandleShopFromOrderConfirmation | src/hooks/useNavigation.ts:71-75 | the list is shown, the selection cleared and the address reset |
| Navigation.Navigator.HandleMenuNavigation | src/hooks/useNavigation.ts:78-81 | the screen named by the menu id is shown and the selection cleared |
| Navigation.Navigator.HandleRoomAnalyzerClick | src/hooks/useNavigation.ts:84-86 | the room analyser is shown |
| Navigation.TransitionIgnoresScreen | src/hooks/useNavigation.ts:20-86 | no handler's effect depends on the screen it is called from |
| Navigation.TransitionScreen | src/hooks/useNavigation.ts:20-86 | each handler shows a fixed screen, whatever the store held |
| Navigation.RunLastScreen | src/hooks/useNavigation.ts:20-86 | after a run of handlers the screen is the one set by the last handler |
| Navigation.RunAppend | src/src/Code-component-11-13.tsx:209-279 | running two runs of handlers one after the other is running their concatenation |
| Navigation.RunKeepsListAndOverlay | src/src/Code-component-11-13.tsx:209-279 | the navigation handlers never touch the favourites, search, filters, sort, menu flag or overlay (the side menu closes itself through its own `onClose`, src/src/components/Menu.tsx:12-13, which is `SetIsNavOpen`) |
| Navigation.RunCart | src/hooks/useNavigation.ts:65-69 | navigation leaves the cart as it was unless the run completes a purchase, which empties it |
| Navigation.RunKeepsCartValid | src/hooks/useNavigation.ts:20-86 | navigation keeps the cart free of duplicate lines |
| Navigation.BackFromBasketUndoes | src/hooks/useNavigation.ts:31-37 | from the list, opening the basket and going back restores the whole store |
| Navigation.BackFromCheckoutUndoes | src/hooks/useNavigation.ts:40-46 | from the basket, going to checkout and back restores the whole store |
| Navigation.BackFromPaymentUndoes | src/hooks/useNavigation.ts:48-55 | from checkout, going to payment and back restores the store except that the submitted address is kept |
| Navigation.BackFromConfirmationUndoes | src/hooks/useNavigation.ts:57-63 | from payment, going to review and back restores the whole store |
| Navigation.BackUndoesForward | src/hooks/useNavigation.ts:31-63 | each "back" handler undoes its "forward" handler from the screen that handler is offered on |
| Navigation.BackToListDeselects | src/hooks/useNavigation.ts:20-37 | back to the list from a product clears the selection; basket and back keeps it |
| Navigation.CheckoutFlow | src/src/Code-component-11-13.tsx:229-260 | checkout, payment, review and completing the purchase end on the order confirmation with an empty cart and the submitted address stored |
| Navigation.PurchaseFlow | src/src/Code-component-11-13.tsx:256-274 | completing a purchase and shopping again ends on the list with an empty cart, no selection and an empty address |
| Navigation.MenuNavigationScreen | src/src/Code-component-11-13.tsx:276-279 | a menu entry clears the selection and shows the screen whose name is the entry's id |
| Navigation.MenuIdsAreScreens | src/src/components/Menu.tsx:75-81 | every side-menu id names a known screen; the first two are the list and the room analyser |
| ProductList.RemoveAll | src/components/ProductListPage.tsx:454 | `filter(r => r !== room)` keeps exactly the other entries |
| ProductList.ToggleRoomFilter | src/components/ProductListPage.tsx:452-457 | the room's membership flips; other rooms, styles and the price range are unchanged |
| ProductList.ToggleStyleFilter | src/components/ProductListPage.tsx:459-464 | the style's membership flips; other styles, rooms and the price range are unchanged |
| ProductList.SetPriceFilter | src/components/ProductListPage.tsx:466-469 | choosing the active bucket clears the range; choosing any other bucket sets it; rooms and styles are unchanged |
| ProductList.ToggleEntryCorrect | src/components/ProductListPage.tsx:452-464 | toggling flips membership of one entry only; a new entry is appended at the end; toggling a new entry twice restores the list |
| ProductList.ToggleRoomTwice | src/components/ProductListPage.tsx:452-457 | toggling an unselected room twice restores the filters |
| ProductList.ToggleStyleTwice | src/components/ProductListPage.tsx:459-464 | toggling an unselected style twice restores the filters |
| ProductList.SetPriceFilterKeepsBucket | src/components/ProductListPage.tsx:445-469 | the price range stays either empty or one of the four bucket keys |
| ProductList.InactiveFiltersSearchOnly | src/components/ProductListPage.tsx:475 | when no filter is active, the list is the search result alone |
| ProductList.ClearAllFiltersCorrect | src/components/ProductListPage.tsx:471-473 | after "clear all" no filter is active and an empty search lists the whole catalogue |
| ProductList.OptionsCorrect | src/components/ProductListPage.tsx:442-443 | the option lists are strictly increasing in code-unit order and hold exactly the values given |
| ProductList.RoomOptionsCorrect | src/components/ProductListPage.tsx:442 | the room options are strictly increasing and are exactly the rooms of the products the panel is handed, which is the list shown (see `ProductList.ShownRoomOptions`) |
| ProductList.StyleOptionsCorrect | src/components/ProductListPage.tsx:443 | the style options are strictly increasing and are exactly the styles of the products the panel is handed, which is the list shown (see `ProductList.ShownStyleOptions`) |
| ProductList.Content | src/components/ProductListPage.tsx:287-306 | the empty-state message shows exactly when no product is listed; otherwise one card per product |
| ProductList.ShownProducts | src/src/Code-component-11-13.tsx:287 | the list page (and so its filter panel) is handed exactly the catalogue entries that pass the current search and filters, whatever the sort |
| ProductList.ShownRoomOptions | src/components/ProductListPage.tsx:92-96 | a room is offered exactly when a product passing the current search and filters is in it; once rooms are selected only selected rooms are offered, so no further room can be added from the panel |
| ProductList.ShownStyleOptions | src/components/ProductListPage.tsx:440-443 | a style is offered exactly when a product passing the current search and filters has it; once styles are selected only selected styles are offered |
| BasketPage.View | src/src/components/BasketPage.tsx:53-110 | the empty basket shows exactly for an empty cart; otherwise the lines in cart order and the total price |
| BasketPage.TotalPriceAppend | src/src/components/BasketPage.tsx:20 | the total of two carts joined is the sum of their totals |
| BasketPage.TotalPriceReplace | src/src/components/BasketPage.tsx:20 | replacing one line moves the total by the difference of the two subtotals |
| BasketPage.TotalPriceDrop | src/src/components/BasketPage.tsx:20 | dropping one line lowers the total by its subtotal |
| BasketPage.TotalPriceNonNegative | src/src/components/BasketPage.tsx:20 | with non-negative prices and quantities the total is never negative |
| BasketPage.SetLineAt | src/hooks/useAppState.ts:169-175 | setting line i's quantity to a non-zero value changes that line's quantity only, in place |
| BasketPage.ShiftLine | src/src/components/BasketPage.tsx:20 | adding d units to a line moves the total by d unit prices and the count by d |
| BasketPage.MinusEffect | src/src/components/BasketPage.tsx:76 | − asks for one unit less; from one unit the line goes and the rest keep their order, otherwise the line loses one unit in place; total falls by one unit price and count by one |
| BasketPage.PlusEffect | src/src/components/BasketPage.tsx:83 | + asks for one unit more; the line gains one unit in place; total rises by one unit price and count by one |
| ConfirmationPage.LineSubtotals | src/src/components/Code-component-12-154.tsx:71 | one subtotal per line, in cart order, each unit price times quantity |
| ConfirmationPage.TotalIsSumOfLines | src/src/components/Code-component-12-154.tsx:22 | the total to pay is the sum of the displayed line subtotals, and 0 for an empty cart |
| ProductDetail.StepsBounds | src/src/components/ProductDetailPage.tsx:148-155 | from a quantity of at least 1 no sequence of − and + presses goes below 1 or above the start plus the number of + presses |
| ProductDetail.StepFacts | src/src/components/ProductDetailPage.tsx:148-155 | − at 1 stays at 1; − undoes + for any quantity of at least 1; + adds one |
| ProductDetail.DetailPage.constructor | src/src/components/ProductDetailPage.tsx:22-23 | the stepper starts at 1 on the first image |
| ProductDetail.DetailPage.Decrement | src/src/components/ProductDetailPage.tsx:148 | the quantity takes one − step and stays at least 1 |
| ProductDetail.DetailPage.Increment | src/src/components/ProductDetailPage.tsx:155 | the quantity takes one + step |
| ProductDetail.DetailPage.HandleAddToCart | src/src/components/ProductDetailPage.tsx:25-27 | the quantity handed to the store is the stepper's, at least 1 |
| ProductDetail.DetailPage.ShowsFirstImage | src/src/components/ProductDetailPage.tsx:81 | the image shown is always the product's first image, if it has one |
| Checkout.WithField | src/src/components/Code-component-12-145.tsx:27-29 | the edited field takes the value; the other five fields keep theirs |
| Checkout.WithFieldLaws | src/src/components/Code-component-12-145.tsx:27-29 | writing a field's own value changes nothing; a second write wins; writes to different fields commute |
| Checkout.CheckoutForm.constructor | src/src/components/Code-component-12-145.tsx:20 | the form starts from the store's address |
| Checkout.CheckoutForm.HandleChange | src/src/components/Code-component-12-145.tsx:27-29 | the form becomes the old form with one field replaced |
| Checkout.CheckoutForm.HandleSubmit | src/src/components/Code-component-12-145.tsx:22-25 | the form is handed on as it stands, with no validation |
| RoomAnalyzer.Recommended | src/components/RoomAnalyzerPage.tsx:72-77 | nothing before an analysis; afterwards exactly the catalogue products whose id is recommended, never more than the catalogue |
| RoomAnalyzer.RecommendedAppend | src/components/RoomAnalyzerPage.tsx:72-77 | the recommendations keep catalogue order: the selection distributes over concatenation |
| RoomAnalyzer.RecommendedDistinct | src/components/RoomAnalyzerPage.tsx:72-77 | from a catalogue with distinct ids, the recommended products have distinct ids |
| RoomAnalyzer.MockRecommendsAtMostThree | src/components/RoomAnalyzerPage.tsx:55-66 | the mock analysis recommends at most three products |
| RoomAnalyzer.AnalyzerPage.constructor | src/components/RoomAnalyzerPage.tsx:28-30 | no photo, not analysing, no result |
| RoomAnalyzer.AnalyzerPage.HandleImageUpload | src/components/RoomAnalyzerPage.tsx:33-44 | with no file nothing changes; a read file becomes the photo and drops any earlier result |
| RoomAnalyzer.AnalyzerPage.AnalyzeRoom | src/components/RoomAnalyzerPage.tsx:46-52 | without a photo (absent or empty) nothing happens; otherwise the analysis is marked as running |
| RoomAnalyzer.AnalyzerPage.FinishAnalysis | src/components/RoomAnalyzerPage.tsx:55-69 | the mock result is stored and the analysis stops running; the photo is kept |
| Types.ViewModeName | src/types/index.ts:27-38 | the string naming each screen; `Types.ParseViewMode` and `Types.ParseNameRoundTrip` state that it and the cast invert each other |
| Text.Contains | src/hooks/useAppState.ts:50-52 | `includes`: the term occurs at some position; `Text.ContainsEmpty` and `Catalogue.SearchExample` state its behaviour |
| Ordering.Insert | src/hooks/useAppState.ts:84-91 | one step of the stable sort: the result is the input with the element added (multiset); `Ordering.InsertSorted` proves it keeps a list ordered |
| Ordering.SortBy | src/hooks/useAppState.ts:84-91 | `Array.prototype.sort` with a comparator: a permutation of its input; `Ordering.SortBySorted` and `Ordering.SortByStable` state that it sorts, stably |
| Ordering.CodeUnitLe | src/components/ProductListPage.tsx:442-443 | the default order of `sort()` on strings; `Ordering.CodeUnitLeIsTotalPreorder` proves it a total order |
| Catalogue.MatchesSearch | src/hooks/useAppState.ts:50-52 | lower-cased name includes lower-cased term; `Catalogue.SearchIgnoresTermCase` states the case-insensitivity |
| Catalogue.MatchesAny | src/hooks/useAppState.ts:55-60 | an empty room or style selection imposes nothing, otherwise the value must be selected; `Catalogue.NoConstraintShowsAll` and `ProductList.InactiveFiltersSearchOnly` use it |
| Catalogue.MatchesPrice | src/hooks/useAppState.ts:63-79 | the price switch; `Catalogue.BucketsPartition` and `Catalogue.UnrecognisedRangeIsNoConstraint` state that the buckets partition the prices and anything else passes |
| Catalogue.Matches | src/hooks/useAppState.ts:48-82 | the conjunction of the four checks; `Catalogue.Visible` states that it decides membership in the list |
| Catalogue.PriceLe | src/hooks/useAppState.ts:88 | the price comparator; `Catalogue.PriceLeIsTotalPreorder` |
| Catalogue.ByName | src/hooks/useAppState.ts:86 | the name comparator over a collation; `Catalogue.ByNameIsTotalPreorder` |
| Cart.CartCount | src/hooks/useAppState.ts:45 | the sum of the quantities; `Cart.CountReplace`, `Cart.CountDrop` and `Cart.AddItemCorrect` state how each update moves it |
| Cart.NewItem | src/hooks/useAppState.ts:149-158 | the line snapshotting id, name, price, unit price and first image; `Cart.AddItemCorrect` states it is what a new product appends |
| Cart.AddItem | src/hooks/useAppState.ts:134-161 | the cart after `addToCart` for a found product; `Cart.AddItemCorrect` and `Cart.AddItemKeepsIdsUnique` state its contract |
| Cart.UpdateQuantity | src/hooks/useAppState.ts:164-176 | the cart after `updateCartItemQuantity`; `Cart.UpdateQuantityCorrect` states its contract |
| AppStore.OverlayOf | src/hooks/useAppState.ts:106-110 | the overlay snapshot: id, name and `images[0]` |
| AppStore.AppState.CartCount | src/src/Code-component-11-13.tsx:63-66 | the count derived from the store's cart; `AppStore.AppState.AddToCart` and `AppStore.AppState.ClearCart` state how it moves |
| AppStore.AppState.FilteredAndSortedProducts | src/src/Code-component-11-13.tsx:68-116 | the list derived from the store's search, filters and sort; `Catalogue.FilteredAndSortedCorrect` states its contract |
| Navigation.Transition | src/hooks/useNavigation.ts:20-86 | the store after each handler; `Navigation.TransitionScreen`, `Navigation.TransitionIgnoresScreen`, `Navigation.RunCart` and `Navigation.BackUndoesForward` state its properties |
| Navigation.Run | src/src/Code-component-11-13.tsx:209-279 | a sequence of handlers in order; `Navigation.RunAppend` states that runs compose |
| ProductList.ToggleEntry | src/components/ProductListPage.tsx:452-464 | remove when present, append otherwise; `ProductList.ToggleEntryCorrect` states its contract |
| ProductList.ClearAllFilters | src/components/ProductListPage.tsx:471-473 | no room, no style, no price; `ProductList.ClearAllFiltersCorrect` |
| ProductList.HasActiveFilters | src/components/ProductListPage.tsx:475 | a room, a style, or a truthy price range is selected; `ProductList.InactiveFiltersSearchOnly` and `ProductList.ClearAllFiltersCorrect` state what it means for the list |
| ProductList.Options | src/components/ProductListPage.tsx:442-443 | `[...new Set(values)].sort()`; `ProductList.OptionsCorrect` |
| ProductList.RoomOptions | src/components/ProductListPage.tsx:442 | the room options of a product list; `ProductList.RoomOptionsCorrect` and `ProductList.ShownRoomOptions` |
| ProductList.StyleOptions | src/components/ProductListPage.tsx:443 | the style options of a product list; `ProductList.StyleOptionsCorrect` and `ProductList.ShownStyleOptions` |
| BasketPage.Subtotal | src/src/components/BasketPage.tsx:20 | one line's price times quantity; `BasketPage.SubtotalShift` |
| BasketPage.TotalPrice | src/src/components/BasketPage.tsx:20 | the left-to-right sum of the subtotals; `BasketPage.TotalPriceAppend`, `TotalPriceReplace`, `TotalPriceDrop`, `TotalPriceNonNegative` and `ConfirmationPage.TotalIsSumOfLines` state its properties |
| BasketPage.MinusRequest | src/src/components/BasketPage.tsx:76 | the request of the − button; `BasketPage.MinusEffect` states what it does to the cart |
| BasketPage.PlusRequest | src/src/components/BasketPage.tsx:83 | the request of the + button; `BasketPage.PlusEffect` states what it does to the cart |
| ConfirmationPage.Sum | src/src/components/Code-component-12-154.tsx:22 | the sum of the displayed subtotals; `ConfirmationPage.TotalIsSumOfLines` |
| ProductDetail.Step | src/src/components/ProductDetailPage.tsx:148-155 | one press of − (never below 1) or +; `ProductDetail.StepFacts` and `ProductDetail.StepsBounds` |
| ProductDetail.Steps | src/src/components/ProductDetailPage.tsx:148-155 | a sequence of presses in order; `ProductDetail.StepsBounds` |
| ProductDetail.DetailPage.DisplayedImage | src/src/components/ProductDetailPage.tsx:81 | `images[currentImageIndex]`; `ProductDetail.DetailPage.ShowsFirstImage` |
| Checkout.FieldOf | src/src/components/Code-component-12-145.tsx:27-29 | the field whose key each input passes literally to `handleChange` (a `keyof CustomerInfo`); `Checkout.WithField` and `Checkout.WithFieldLaws` are stated through it |
| RoomAnalyzer.AnalyzerPage.RecommendedProducts | src/components/RoomAnalyzerPage.tsx:72-77 | `getRecommendedProducts` on the page's current result; `RoomAnalyzer.Recommended` states its contract |

## Left out

- Timers: the one-second overlay timeout (src/hooks/useAppState.ts:115-117) and the analysis delay (src/components/RoomAnalyzerPage.tsx:52) are explicit events, `HideOverlay` and `FinishAnalysis`. The order in which they fire relative to other handlers is not modelled.
- RoomAnalyzer.AnalyzerPage.FinishAnalysis: not tied to an earlier `AnalyzeRoom`. The disabled state of the analyse button (src/components/RoomAnalyzerPage.tsx:128-129) is not a precondition.
- File reading: `FileReader` is not modelled. The uploaded photo is an opaque optional data URL handed to `HandleImageUpload`.
- The catalogue is a parameter of the store. src/data/products is not part of this model.
- `localeCompare` is a collation parameter. The "a-z" sort is proved sorted and stable for any collation that is a total preorder.
- Text.ToLower: `toLowerCase` is modelled on the ASCII letters A-Z only. Other characters are left unchanged.
- Characters: a Dafny `char` is a Unicode scalar value, not a UTF-16 code unit. Lone surrogates cannot be represented, and a character above U+FFFF is one `char` where JavaScript sees two code units. So `Ordering.CodeUnitLe` orders such strings by scalar value, which can differ from JavaScript's default `sort()`; strings within the Basic Multilingual Plane (all room and style names of the catalogue) are ordered alike.
- Numbers: prices, quantities and totals are unbounded integers. JavaScript's floating-point numbers are not modelled.
- Price display: `toLocaleString` formatting (src/src/components/BasketPage.tsx:101) and all JSX rendering are left out. Only the list area, the basket view and the review subtotals are modelled as values.
- Product fields: the descriptive fields (description, features, specifications and the like) are dropped. No modelled logic reads them.
- The payment page (src/src/components/Code-component-12-149.tsx) holds no logic beyond its buttons, and its handlers are the navigation handlers modelled here.
- The order confirmation page's order number, built from `Date.now()`, is left out.
- The variant room analyser that recommends random products with `Math.random` (src/src/components/Code-component-12-162.tsx) is not part of this model.
- The order review page receives `onUpdateQuantity` (src/src/components/Code-component-12-154.tsx:19) but never calls it. Its only action is the complete-purchase button, modelled as the `CompletePurchase` handler.
- Room analyser wiring: the page calls `onProductClick(product.id)` (src/components/RoomAnalyzerPage.tsx:222), while the app wires that prop to a handler that expects a product. App.tsx is not part of this model, so what that call selects is not modelled.
- ProductList.HasActiveFilters: JavaScript's `||` returns the price string or the room array, not a boolean. The model keeps only its truthiness.
- BasketPage.PlusEffect: stated only for lines holding at least one unit, which is every line the store can hold. A line at −1 would be removed by +, and that case is not covered.
