/** The order review page: one subtotal per line and the total to pay, which is
    computed with the same fold as the basket's. */
module ConfirmationPage {
  import opened Types
  import BasketPage

  /** The subtotal shown on each line, in cart order. */
  function LineSubtotals(cart: seq<CartItem>): (r: seq<int>)
    ensures |r| == |cart|
    ensures forall i :: 0 <= i < |cart| ==> r[i] == cart[i].priceValue * cart[i].quantity
  {
    if cart == [] then [] else [BasketPage.Subtotal(cart[0])] + LineSubtotals(cart[1..])
  }

  function Sum(s: seq<int>): int
  {
    if s == [] then 0 else s[0] + Sum(s[1..])
  }

  /** The total to pay is the sum of the displayed line subtotals, and 0 for an empty cart. */
  lemma {:induction false} TotalIsSumOfLines(cart: seq<CartItem>)
    ensures BasketPage.TotalPrice(cart) == Sum(LineSubtotals(cart))
    ensures cart == [] ==> BasketPage.TotalPrice(cart) == 0
  {
    if cart != [] {
      TotalIsSumOfLines(cart[1..]);
      assert cart == [cart[0]] + cart[1..];
      BasketPage.TotalPriceAppend([cart[0]], cart[1..]);
      BasketPage.TotalPriceSingle(cart[0]);
    }
  }
}
