/** The screen handlers of `useNavigation` (and of the inline `App`): each one
    sets the screen and, for some, the selected product, the address, or the
    cart. `Transition` states what every handler does to the store; the class
    `Navigator` performs the handlers on a live `AppState`. */
module Navigation {
  import opened Types
  import opened AppStore
  import Cart

  /** One call of one handler, with its argument. */
  datatype NavEvent =
    | ProductClick(product: Product)
    | BackToList
    | CartClick
    | BackFromBasket
    | GoToCheckout
    | BackFromCheckout
    | ProceedToPayment(customerData: CustomerInfo)
    | BackFromPayment
    | ProceedToConfirmation
    | BackFromConfirmation
    | CompletePurchase
    | ShopFromOrderConfirmation
    | MenuNavigation(screen: string)
    | RoomAnalyzerClick

  /** The store after one handler. No handler looks at the current screen. */
  function Transition(s: State, e: NavEvent): State
  {
    match e
    case ProductClick(p) => s.(selectedProduct := Some(p), viewMode := Detail)
    case BackToList => s.(viewMode := List, selectedProduct := None)
    case CartClick => s.(viewMode := Basket)
    case BackFromBasket => s.(viewMode := List)
    case GoToCheckout => s.(viewMode := Checkout)
    case BackFromCheckout => s.(viewMode := Basket)
    case ProceedToPayment(info) => s.(customerInfo := info, viewMode := Payment)
    case BackFromPayment => s.(viewMode := Checkout)
    case ProceedToConfirmation => s.(viewMode := Confirmation)
    case BackFromConfirmation => s.(viewMode := Payment)
    case CompletePurchase => s.(viewMode := OrderConfirmation, cartItems := [])
    case ShopFromOrderConfirmation =>
      s.(viewMode := List, selectedProduct := None, customerInfo := InitialCustomerInfo)
    case MenuNavigation(screen) => s.(viewMode := ParseViewMode(screen), selectedProduct := None)
    case RoomAnalyzerClick => s.(viewMode := RoomAnalyzer)
  }

  /** A sequence of handler calls, in order. */
  function Run(s: State, events: seq<NavEvent>): State
    decreases |events|
  {
    if events == [] then s else Run(Transition(s, events[0]), events[1..])
  }

  /** The ids of the side menu's entries. */
  const MenuIds: seq<string> := ["list", "roomAnalyzer", "newsstand", "about", "profile"]

  class Navigator {
    const app: AppState

    constructor (app: AppState)
      ensures this.app == app
    {
      this.app := app;
    }

    method HandleProductClick(product: Product)
      modifies app
      ensures app.Snapshot() == Transition(old(app.Snapshot()), ProductClick(product))
    {
      app.selectedProduct := Some(product);
      app.viewMode := Detail;
    }

    method HandleBackToList()
      modifies app
      ensures app.Snapshot() == Transition(old(app.Snapshot()), BackToList)
    {
      app.viewMode := List;
      app.selectedProduct := None;
    }

    method HandleCartClick()
      modifies app
      ensures app.Snapshot() == Transition(old(app.Snapshot()), CartClick)
    {
      app.viewMode := Basket;
    }

    method HandleBackFromBasket()
      modifies app
      ensures app.Snapshot() == Transition(old(app.Snapshot()), BackFromBasket)
    {
      app.viewMode := List;
    }

    method HandleGoToCheckout()
      modifies app
      ensures app.Snapshot() == Transition(old(app.Snapshot()), GoToCheckout)
    {
      app.viewMode := Checkout;
    }

    method HandleBackFromCheckout()
      modifies app
      ensures app.Snapshot() == Transition(old(app.Snapshot()), BackFromCheckout)
    {
      app.viewMode := Basket;
    }

    method HandleProceedToPayment(customerData: CustomerInfo)
      modifies app
      ensures app.Snapshot() == Transition(old(app.Snapshot()), ProceedToPayment(customerData))
    {
      app.customerInfo := customerData;
      app.viewMode := Payment;
    }

    method HandleBackFromPayment()
      modifies app
      ensures app.Snapshot() == Transition(old(app.Snapshot()), BackFromPayment)
    {
      app.viewMode := Checkout;
    }

    method HandleProceedToConfirmation()
      modifies app
      ensures app.Snapshot() == Transition(old(app.Snapshot()), ProceedToConfirmation)
    {
      app.viewMode := Confirmation;
    }

    method HandleBackFromConfirmation()
      modifies app
      ensures app.Snapshot() == Transition(old(app.Snapshot()), BackFromConfirmation)
    {
      app.viewMode := Payment;
    }

    method HandleCompletePurchase()
      modifies app
      ensures app.Snapshot() == Transition(old(app.Snapshot()), CompletePurchase)
      ensures app.Valid() && app.CartCount() == 0
    {
      app.viewMode := OrderConfirmation;
      app.ClearCart();
    }

    method HandleShopFromOrderConfirmation()
      modifies app
      ensures app.Snapshot() == Transition(old(app.Snapshot()), ShopFromOrderConfirmation)
    {
      app.viewMode := List;
      app.selectedProduct := None;
      app.ResetCustomerInfo();
    }

    method HandleMenuNavigation(screen: string)
      modifies app
      ensures app.Snapshot() == Transition(old(app.Snapshot()), MenuNavigation(screen))
    {
      app.viewMode := ParseViewMode(screen);
      app.selectedProduct := None;
    }

    method HandleRoomAnalyzerClick()
      modifies app
      ensures app.Snapshot() == Transition(old(app.Snapshot()), RoomAnalyzerClick)
    {
      app.viewMode := RoomAnalyzer;
    }
  }

  /** The result of a handler does not depend on the screen it was called from. */
  lemma TransitionIgnoresScreen(s: State, e: NavEvent, v: ViewMode)
    ensures Transition(s.(viewMode := v), e) == Transition(s, e)
  {
  }

  /** Handlers never touch the favourites, the list controls, the menu or the overlay. */
  lemma {:induction false} RunKeepsListAndOverlay(s: State, events: seq<NavEvent>)
    ensures var t := Run(s, events);
            && t.favorites == s.favorites
            && t.searchTerm == s.searchTerm
            && t.sortOption == s.sortOption
            && t.filters == s.filters
            && t.isNavOpen == s.isNavOpen
            && t.showOverlay == s.showOverlay
            && t.overlayProduct == s.overlayProduct
            && t.overlayQuantity == s.overlayQuantity
    decreases |events|
  {
    if events != [] {
      RunKeepsListAndOverlay(Transition(s, events[0]), events[1..]);
    }
  }

  /** Navigation either leaves the cart as it was or empties it, and it empties
      it exactly when a purchase was completed. */
  lemma {:induction false} RunCart(s: State, events: seq<NavEvent>)
    ensures Run(s, events).cartItems == if CompletePurchase in events then [] else s.cartItems
    decreases |events|
  {
    if events != [] {
      RunCart(Transition(s, events[0]), events[1..]);
      assert events == [events[0]] + events[1..];
    }
  }

  /** So navigation keeps the cart free of duplicate lines. */
  lemma RunKeepsCartValid(s: State, events: seq<NavEvent>)
    requires Cart.UniqueIds(s.cartItems)
    ensures Cart.UniqueIds(Run(s, events).cartItems)
  {
    RunCart(s, events);
  }

  /** The screen each handler shows, whatever the store held before. */
  function ScreenAfter(e: NavEvent): ViewMode
  {
    match e
    case ProductClick(_) => Detail
    case BackToList => List
    case CartClick => Basket
    case BackFromBasket => List
    case GoToCheckout => Checkout
    case BackFromCheckout => Basket
    case ProceedToPayment(_) => Payment
    case BackFromPayment => Checkout
    case ProceedToConfirmation => Confirmation
    case BackFromConfirmation => Payment
    case CompletePurchase => OrderConfirmation
    case ShopFromOrderConfirmation => List
    case MenuNavigation(screen) => ParseViewMode(screen)
    case RoomAnalyzerClick => RoomAnalyzer
  }

  lemma TransitionScreen(s: State, e: NavEvent)
    ensures Transition(s, e).viewMode == ScreenAfter(e)
  {
  }

  /** The screen after a non-empty run is set by its last handler alone. */
  lemma {:induction false} RunLastScreen(s: State, events: seq<NavEvent>)
    requires events != []
    ensures Run(s, events).viewMode == ScreenAfter(events[|events| - 1])
    decreases |events|
  {
    if |events| == 1 {
      TransitionScreen(s, events[0]);
    } else {
      RunLastScreen(Transition(s, events[0]), events[1..]);
      assert events[1..][|events| - 2] == events[|events| - 1];
    }
  }

  /** Running two sequences of handlers one after the other is running their concatenation. */
  lemma {:induction false} RunAppend(s: State, xs: seq<NavEvent>, ys: seq<NavEvent>)
    ensures Run(s, xs + ys) == Run(Run(s, xs), ys)
    decreases |xs|
  {
    if xs == [] {
      assert xs + ys == ys;
    } else {
      assert (xs + ys)[1..] == xs[1..] + ys;
      RunAppend(Transition(s, xs[0]), xs[1..], ys);
    }
  }

  lemma RunOne(s: State, e: NavEvent)
    ensures Run(s, [e]) == Transition(s, e)
  {
    assert [e][1..] == [];
  }

  lemma RunTwo(s: State, a: NavEvent, b: NavEvent)
    ensures Run(s, [a, b]) == Transition(Transition(s, a), b)
  {
    assert [a, b] == [a] + [b];
    RunAppend(s, [a], [b]);
    RunOne(s, a);
    RunOne(Transition(s, a), b);
  }

  lemma BackFromBasketUndoes(s: State)
    requires s.viewMode == List
    ensures Run(s, [CartClick, BackFromBasket]) == s
  {
    RunTwo(s, CartClick, BackFromBasket);
  }

  lemma BackFromCheckoutUndoes(s: State)
    requires s.viewMode == Basket
    ensures Run(s, [GoToCheckout, BackFromCheckout]) == s
  {
    RunTwo(s, GoToCheckout, BackFromCheckout);
  }

  lemma BackFromPaymentUndoes(s: State, info: CustomerInfo)
    requires s.viewMode == Checkout
    ensures Run(s, [ProceedToPayment(info), BackFromPayment]) == s.(customerInfo := info)
  {
    RunTwo(s, ProceedToPayment(info), BackFromPayment);
  }

  lemma BackFromConfirmationUndoes(s: State)
    requires s.viewMode == Payment
    ensures Run(s, [ProceedToConfirmation, BackFromConfirmation]) == s
  {
    RunTwo(s, ProceedToConfirmation, BackFromConfirmation);
  }

  /** Each "back" handler returns to the screen its "forward" handler left, and
      changes nothing else: the address entered before payment is kept. */
  lemma BackUndoesForward(s: State, info: CustomerInfo)
    ensures s.viewMode == Basket ==> Run(s, [GoToCheckout, BackFromCheckout]) == s
    ensures s.viewMode == List ==> Run(s, [CartClick, BackFromBasket]) == s
    ensures s.viewMode == Payment ==> Run(s, [ProceedToConfirmation, BackFromConfirmation]) == s
    ensures s.viewMode == Checkout
            ==> Run(s, [ProceedToPayment(info), BackFromPayment]) == s.(customerInfo := info)
  {
    if s.viewMode == Basket {
      BackFromCheckoutUndoes(s);
    } else if s.viewMode == List {
      BackFromBasketUndoes(s);
    } else if s.viewMode == Payment {
      BackFromConfirmationUndoes(s);
    } else if s.viewMode == Checkout {
      BackFromPaymentUndoes(s, info);
    }
  }

  /** Going back to the list from a product deselects it; going back from the basket does not. */
  lemma BackToListDeselects(s: State, p: Product)
    ensures Run(s, [ProductClick(p), BackToList]).selectedProduct == None
    ensures Run(s, [ProductClick(p), CartClick, BackFromBasket]).selectedProduct == Some(p)
  {
    RunTwo(s, ProductClick(p), BackToList);
    assert [ProductClick(p), CartClick, BackFromBasket] == [ProductClick(p)] + [CartClick, BackFromBasket];
    RunAppend(s, [ProductClick(p)], [CartClick, BackFromBasket]);
    RunOne(s, ProductClick(p));
    RunTwo(Transition(s, ProductClick(p)), CartClick, BackFromBasket);
  }

  /** The checkout up to the order confirmation: the cart is emptied and the
      address entered before payment is kept for the confirmation screen. */
  lemma CheckoutFlow(s: State, info: CustomerInfo)
    ensures Run(s, [GoToCheckout, ProceedToPayment(info), ProceedToConfirmation, CompletePurchase])
            == s.(viewMode := OrderConfirmation, customerInfo := info, cartItems := [])
  {
    var pay := [GoToCheckout, ProceedToPayment(info)];
    var finish := [ProceedToConfirmation, CompletePurchase];
    assert [GoToCheckout, ProceedToPayment(info), ProceedToConfirmation, CompletePurchase] == pay + finish;
    RunAppend(s, pay, finish);
    RunTwo(s, GoToCheckout, ProceedToPayment(info));
    RunTwo(Run(s, pay), ProceedToConfirmation, CompletePurchase);
  }

  /** The whole checkout: after paying and going back to shopping, the cart is
      empty, the address is cleared, no product is selected and the list is shown. */
  lemma PurchaseFlow(s: State, info: CustomerInfo)
    ensures var t := Run(s, [GoToCheckout, ProceedToPayment(info), ProceedToConfirmation,
                             CompletePurchase, ShopFromOrderConfirmation]);
            && t == s.(viewMode := List, selectedProduct := None,
                       customerInfo := InitialCustomerInfo, cartItems := [])
            && Cart.CartCount(t.cartItems) == 0
  {
    var checkout := [GoToCheckout, ProceedToPayment(info), ProceedToConfirmation, CompletePurchase];
    assert [GoToCheckout, ProceedToPayment(info), ProceedToConfirmation, CompletePurchase,
            ShopFromOrderConfirmation] == checkout + [ShopFromOrderConfirmation];
    RunAppend(s, checkout, [ShopFromOrderConfirmation]);
    CheckoutFlow(s, info);
    RunOne(Run(s, checkout), ShopFromOrderConfirmation);
  }

  /** A menu entry always deselects the product; the screen it shows is the one
      its id names, and an id that names no screen is kept as it is. */
  lemma MenuNavigationScreen(s: State, screen: string)
    ensures Transition(s, MenuNavigation(screen)).selectedProduct == None
    ensures ViewModeName(Transition(s, MenuNavigation(screen)).viewMode) == screen
  {
  }

  /** Every id in the side menu names a known screen. */
  lemma MenuIdsAreScreens()
    ensures forall i :: 0 <= i < |MenuIds| ==> !ParseViewMode(MenuIds[i]).Unknown?
    ensures ParseViewMode(MenuIds[0]) == List
    ensures ParseViewMode(MenuIds[1]) == RoomAnalyzer
  {
  }
}
