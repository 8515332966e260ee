/** The product page's local state: the quantity stepper and the index of the
    image shown, and the quantity its "add to cart" button hands to the store. */
module ProductDetail {
  import opened Types

  datatype Press = Minus | Plus

  /** The stepper after one press: − never goes below 1, + adds one. */
  function Step(quantity: int, press: Press): int
  {
    match press
    case Minus => if quantity - 1 < 1 then 1 else quantity - 1
    case Plus => quantity + 1
  }

  /** The stepper after a sequence of presses, in order. */
  function Steps(quantity: int, presses: seq<Press>): int
    decreases |presses|
  {
    if presses == [] then quantity else Steps(Step(quantity, presses[0]), presses[1..])
  }

  function CountPlus(presses: seq<Press>): nat
  {
    if presses == [] then 0 else (if presses[0] == Plus then 1 else 0) + CountPlus(presses[1..])
  }

  /** The image at an index, if there is one. */
  function ImageAt(p: Product, index: int): Option<string>
  {
    if 0 <= index < |p.images| then Some(p.images[index]) else None
  }

  /** From any quantity of at least 1, no sequence of presses goes below 1, and
      the quantity never exceeds the start plus the number of + presses. */
  lemma {:induction false} StepsBounds(quantity: int, presses: seq<Press>)
    requires quantity >= 1
    ensures 1 <= Steps(quantity, presses) <= quantity + CountPlus(presses)
    decreases |presses|
  {
    if presses != [] {
      StepsBounds(Step(quantity, presses[0]), presses[1..]);
    }
  }

  /** − at 1 stays at 1; − above 1 undoes +. */
  lemma StepFacts(quantity: int)
    ensures Step(1, Minus) == 1
    ensures quantity >= 1 ==> Step(Step(quantity, Plus), Minus) == quantity
    ensures Step(quantity, Plus) == quantity + 1
  {
  }

  class DetailPage {
    const product: Product
    var quantity: int
    var currentImageIndex: int

    /** The quantity is at least 1 and the first image is the one shown. */
    ghost predicate Valid()
      reads this
    {
      quantity >= 1 && currentImageIndex == 0
    }

    constructor (product: Product)
      ensures Valid()
      ensures this.product == product && quantity == 1 && currentImageIndex == 0
    {
      this.product := product;
      quantity := 1;
      currentImageIndex := 0;
    }

    /** The image shown: `images[currentImageIndex]`. */
    function DisplayedImage(): Option<string>
      reads this
    {
      ImageAt(product, currentImageIndex)
    }

    method Decrement()
      requires Valid()
      modifies this
      ensures Valid()
      ensures quantity == Step(old(quantity), Minus)
      ensures currentImageIndex == old(currentImageIndex)
    {
      var next := quantity - 1;
      if next < 1 {
        next := 1;
      }
      quantity := next;
    }

    method Increment()
      requires Valid()
      modifies this
      ensures Valid()
      ensures quantity == Step(old(quantity), Plus)
      ensures currentImageIndex == old(currentImageIndex)
    {
      quantity := quantity + 1;
    }

    /** `handleAddToCart`: hands over the current quantity and resets nothing. */
    method HandleAddToCart() returns (requested: int)
      requires Valid()
      ensures requested == quantity && requested >= 1
    {
      requested := quantity;
    }

    /** No handler moves the image index, so the first image is always the one shown. */
    lemma ShowsFirstImage()
      requires Valid()
      ensures DisplayedImage() == FirstImage(product)
    {
    }
  }
}
