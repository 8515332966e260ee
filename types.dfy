/** The records and enumerations shared by the storefront: products, cart lines,
    the overlay snapshot, the checkout address, the filter selection, the sort
    option and the screen the app is showing. */
module Types {

  datatype Option<+T> = None | Some(value: T)

  /** A catalogue entry. Only the fields some modelled logic reads are kept;
      `images` may be empty, in which case `images[0]` is JavaScript's undefined. */
  datatype Product = Product(
    id: int,
    name: string,
    price: string,
    priceValue: int,
    brand: string,
    images: seq<string>,
    room: string,
    style: string)

  /** `images[0]`, or None where JavaScript would read undefined. */
  function FirstImage(p: Product): (r: Option<string>)
    ensures r.Some? <==> |p.images| > 0
    ensures r.Some? ==> r.value == p.images[0]
  {
    if |p.images| == 0 then None else Some(p.images[0])
  }

  /** A cart line: a snapshot of the product taken on first add, plus a quantity. */
  datatype CartItem = CartItem(
    id: int,
    name: string,
    price: string,
    priceValue: int,
    image: Option<string>,
    quantity: int)

  datatype OverlayProduct = OverlayProduct(id: int, name: string, image: Option<string>)

  datatype CustomerInfo = CustomerInfo(
    fullName: string,
    address: string,
    city: string,
    country: string,
    state: string,
    zipCode: string)

  /** The six fields of CustomerInfo, as `keyof CustomerInfo`. */
  datatype CustomerField = FullName | Address | City | Country | State | ZipCode

  /** `priceRange` is `string | null`; any string may be stored, not only the four buckets. */
  datatype FilterOptions = FilterOptions(room: seq<string>, style: seq<string>, priceRange: Option<string>)

  datatype SortOption = Default | AZ | Price

  /** The eleven screens, plus whatever other string `handleMenuNavigation` is handed. */
  datatype ViewMode =
    | List | Detail | Basket | Checkout | Payment | Confirmation
    | OrderConfirmation | RoomAnalyzer | Newsstand | About | Profile
    | Unknown(name: string)

  /** The string each screen is named by in the source. */
  function ViewModeName(v: ViewMode): string
  {
    match v
    case List => "list"
    case Detail => "detail"
    case Basket => "basket"
    case Checkout => "checkout"
    case Payment => "payment"
    case Confirmation => "confirmation"
    case OrderConfirmation => "orderConfirmation"
    case RoomAnalyzer => "roomAnalyzer"
    case Newsstand => "newsstand"
    case About => "about"
    case Profile => "profile"
    case Unknown(s) => s
  }

  /** `screen as ViewMode`: a known name gives its screen, any other string is kept as is. */
  function ParseViewMode(s: string): (v: ViewMode)
    ensures ViewModeName(v) == s
  {
    if s == "list" then List
    else if s == "detail" then Detail
    else if s == "basket" then Basket
    else if s == "checkout" then Checkout
    else if s == "payment" then Payment
    else if s == "confirmation" then Confirmation
    else if s == "orderConfirmation" then OrderConfirmation
    else if s == "roomAnalyzer" then RoomAnalyzer
    else if s == "newsstand" then Newsstand
    else if s == "about" then About
    else if s == "profile" then Profile
    else Unknown(s)
  }

  /** A value that `ParseViewMode` can produce: an Unknown never carries a known name. */
  predicate Canonical(v: ViewMode)
  {
    v.Unknown? ==> ParseViewMode(v.name) == v
  }

  /** Naming a canonical screen and parsing the name back gives the same screen. */
  lemma ParseNameRoundTrip(v: ViewMode)
    requires Canonical(v)
    ensures ParseViewMode(ViewModeName(v)) == v
  {
  }

  datatype AnalysisResult = AnalysisResult(
    roomType: string,
    style: string,
    lighting: string,
    recommendations: seq<int>,
    insights: seq<string>)
}
