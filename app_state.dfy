/** The state container of `useAppState` (and of the inline `App` that
    duplicates it): the cart, the favourites, the list controls, the screen,
    the selected product, the checkout address and the add-to-cart overlay. The
    catalogue and the name collation are fixed at construction. */
module AppStore {
  import opened Types
  import Cart
  import Catalogue

  /** Every field of the store, as one value. */
  datatype State = State(
    cartItems: seq<CartItem>,
    favorites: set<int>,
    searchTerm: string,
    sortOption: SortOption,
    filters: FilterOptions,
    isNavOpen: bool,
    viewMode: ViewMode,
    selectedProduct: Option<Product>,
    customerInfo: CustomerInfo,
    showOverlay: bool,
    overlayProduct: Option<OverlayProduct>,
    overlayQuantity: int)

  const InitialCustomerInfo: CustomerInfo := CustomerInfo("", "", "", "", "", "")

  const InitialFilters: FilterOptions := FilterOptions([], [], None)

  const InitialState: State :=
    State.State([], {}, "", Default, InitialFilters, false, List, None, InitialCustomerInfo, false, None, 1)

  /** The overlay snapshot of a product: id, name and first image. */
  function OverlayOf(p: Product): OverlayProduct
  {
    OverlayProduct(p.id, p.name, FirstImage(p))
  }

  class AppState {
    const catalogue: seq<Product>
    const collation: (string, string) -> bool

    var cartItems: seq<CartItem>
    var favorites: set<int>
    var searchTerm: string
    var sortOption: SortOption
    var filters: FilterOptions
    var isNavOpen: bool
    var viewMode: ViewMode
    var selectedProduct: Option<Product>
    var customerInfo: CustomerInfo
    var showOverlay: bool
    var overlayProduct: Option<OverlayProduct>
    var overlayQuantity: int

    function Snapshot(): State
      reads this
    {
      State.State(cartItems, favorites, searchTerm, sortOption, filters, isNavOpen, viewMode,
            selectedProduct, customerInfo, showOverlay, overlayProduct, overlayQuantity)
    }

    /** The cart never holds two lines for one product. */
    ghost predicate Valid()
      reads this
    {
      Cart.UniqueIds(cartItems)
    }

    constructor (catalogue: seq<Product>, collation: (string, string) -> bool)
      ensures Valid()
      ensures Snapshot() == InitialState
      ensures this.catalogue == catalogue && this.collation == collation
    {
      this.catalogue := catalogue;
      this.collation := collation;
      cartItems := [];
      favorites := {};
      searchTerm := "";
      sortOption := Default;
      filters := InitialFilters;
      isNavOpen := false;
      viewMode := List;
      selectedProduct := None;
      customerInfo := InitialCustomerInfo;
      showOverlay := false;
      overlayProduct := None;
      overlayQuantity := 1;
    }

    /** `cartCount`, recomputed from the cart on every read. */
    function CartCount(): int
      reads this
    {
      Cart.CartCount(cartItems)
    }

    /** `filteredAndSortedProducts`, recomputed from the search term, filters and sort option. */
    function FilteredAndSortedProducts(): seq<Product>
      reads this
    {
      Catalogue.FilteredAndSorted(catalogue, searchTerm, filters, sortOption, collation)
    }

    method SetSearchTerm(term: string)
      modifies this
      ensures Snapshot() == old(Snapshot()).(searchTerm := term)
    {
      searchTerm := term;
    }

    method SetSortOption(option: SortOption)
      modifies this
      ensures Snapshot() == old(Snapshot()).(sortOption := option)
    {
      sortOption := option;
    }

    method SetFilters(f: FilterOptions)
      modifies this
      ensures Snapshot() == old(Snapshot()).(filters := f)
    {
      filters := f;
    }

    method SetIsNavOpen(open: bool)
      modifies this
      ensures Snapshot() == old(Snapshot()).(isNavOpen := open)
    {
      isNavOpen := open;
    }

    /** Flips the membership of exactly one id in the favourites. */
    method ToggleFavorite(productId: int)
      modifies this
      ensures Snapshot() == old(Snapshot()).(favorites := Cart.Toggle(old(favorites), productId))
      ensures productId in favorites <==> productId !in old(favorites)
    {
      var newFavorites := favorites;
      if productId in newFavorites {
        newFavorites := newFavorites - {productId};
      } else {
        newFavorites := newFavorites + {productId};
      }
      favorites := newFavorites;
    }

    /** Replaces the overlay snapshot and shows it; the last call wins. */
    method ShowAddToCartOverlay(product: Product, quantity: int)
      modifies this
      ensures Snapshot() == old(Snapshot()).(
                overlayProduct := Some(OverlayOf(product)),
                overlayQuantity := quantity,
                showOverlay := true)
    {
      overlayProduct := Some(OverlayOf(product));
      overlayQuantity := quantity;
      showOverlay := true;
    }

    /** The one-second timer that `ShowAddToCartOverlay` starts, as an explicit event. */
    method HideOverlay()
      modifies this
      ensures Snapshot() == old(Snapshot()).(showOverlay := false)
    {
      showOverlay := false;
    }

    /** Adds `quantityToAdd` units of the target product (see `Cart.TargetProduct`)
        and shows the overlay for it; with no target nothing changes at all. */
    method AddToCart(productId: Option<int>, quantityToAdd: int)
      requires Valid()
      modifies this
      ensures Valid()
      ensures var target := Cart.TargetProduct(catalogue, productId, old(selectedProduct));
              if target.None? then Snapshot() == old(Snapshot())
              else Snapshot() == old(Snapshot()).(
                     cartItems := Cart.AddItem(old(cartItems), target.value, quantityToAdd),
                     overlayProduct := Some(OverlayOf(target.value)),
                     overlayQuantity := quantityToAdd,
                     showOverlay := true)
      ensures CartCount() == old(CartCount())
                + (if Cart.TargetProduct(catalogue, productId, old(selectedProduct)).None? then 0 else quantityToAdd)
    {
      var target: Option<Product> := None;
      if productId.Some? && productId.value != 0 {
        target := Cart.FindById(catalogue, productId.value);
      } else if selectedProduct.Some? {
        target := selectedProduct;
      }
      if target.None? {
        return;
      }
      ShowAddToCartOverlay(target.value, quantityToAdd);
      Cart.AddItemKeepsIdsUnique(cartItems, target.value, quantityToAdd);
      Cart.AddItemCorrect(cartItems, target.value, quantityToAdd);
      cartItems := Cart.AddItem(cartItems, target.value, quantityToAdd);
    }

    /** Sets one line's quantity, removing the line at 0; other lines are untouched. */
    method UpdateCartItemQuantity(productId: int, quantity: int)
      requires Valid()
      modifies this
      ensures Valid()
      ensures Snapshot() == old(Snapshot()).(cartItems := Cart.UpdateQuantity(old(cartItems), productId, quantity))
      ensures Cart.QuantityOf(cartItems, productId)
              == if quantity == 0 || productId !in Cart.Ids(old(cartItems)) then 0 else quantity
    {
      Cart.UpdateQuantityCorrect(cartItems, productId, quantity);
      if quantity == 0 {
        cartItems := Cart.RemoveId(cartItems, productId);
      } else {
        cartItems := Cart.SetQuantity(cartItems, productId, quantity);
      }
    }

    method ResetCustomerInfo()
      modifies this
      ensures Snapshot() == old(Snapshot()).(customerInfo := InitialCustomerInfo)
    {
      customerInfo := InitialCustomerInfo;
    }

    method ClearCart()
      modifies this
      ensures Valid()
      ensures Snapshot() == old(Snapshot()).(cartItems := [])
      ensures CartCount() == 0
    {
      cartItems := [];
    }
  }
}
