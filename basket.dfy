/** The basket page: its running total, the quantity requests its − and +
    buttons send to `updateCartItemQuantity`, and the choice between the empty
    state and the filled basket with its total and checkout button. */
module BasketPage {
  import opened Types
  import Cart

  /** One line's contribution to the total. */
  function Subtotal(item: CartItem): int
  {
    item.priceValue * item.quantity
  }

  /** `cartItems.reduce((sum, item) => sum + item.priceValue * item.quantity, 0)`,
      folded from the left as `reduce` does. */
  function TotalPrice(cart: seq<CartItem>): int
  {
    if cart == [] then 0
    else TotalPrice(cart[..|cart| - 1]) + Subtotal(cart[|cart| - 1])
  }

  /** What `onUpdateQuantity` receives. */
  datatype QuantityRequest = QuantityRequest(productId: int, quantity: int)

  /** The − button of a line. */
  function MinusRequest(item: CartItem): QuantityRequest
  {
    QuantityRequest(item.id, item.quantity - 1)
  }

  /** The + button of a line. */
  function PlusRequest(item: CartItem): QuantityRequest
  {
    QuantityRequest(item.id, item.quantity + 1)
  }

  datatype BasketView = EmptyBasket | Filled(lines: seq<CartItem>, total: int)

  /** The empty state for an empty cart; otherwise the lines, and a footer with
      the total and the checkout button. */
  function View(cart: seq<CartItem>): (v: BasketView)
    ensures v.EmptyBasket? <==> |cart| == 0
    ensures v.Filled? ==> v.lines == cart && v.total == TotalPrice(cart)
  {
    if |cart| == 0 then EmptyBasket else Filled(cart, TotalPrice(cart))
  }

  lemma {:induction false} TotalPriceAppend(a: seq<CartItem>, b: seq<CartItem>)
    ensures TotalPrice(a + b) == TotalPrice(a) + TotalPrice(b)
    decreases |b|
  {
    if b == [] {
      assert a + b == a;
    } else {
      var init := b[..|b| - 1];
      assert (a + b)[..|a + b| - 1] == a + init;
      assert (a + b)[|a + b| - 1] == b[|b| - 1];
      TotalPriceAppend(a, init);
    }
  }

  lemma TotalPriceSingle(item: CartItem)
    ensures TotalPrice([item]) == Subtotal(item)
  {
    assert [item][..0] == [];
  }

  /** A cart is the lines before `i`, line `i`, and the lines after it. */
  lemma SplitAt(cart: seq<CartItem>, i: int)
    requires 0 <= i < |cart|
    ensures cart == (cart[..i] + [cart[i]]) + cart[i + 1..]
  {
  }

  /** Replacing one line changes the total by the difference of the two subtotals. */
  lemma TotalPriceReplace(cart: seq<CartItem>, i: int, item: CartItem)
    requires 0 <= i < |cart|
    ensures TotalPrice(cart[i := item]) == TotalPrice(cart) - Subtotal(cart[i]) + Subtotal(item)
  {
    var a, b := cart[..i], cart[i + 1..];
    assert TotalPrice(cart) == TotalPrice(a) + Subtotal(cart[i]) + TotalPrice(b) by {
      SplitAt(cart, i);
      TotalPriceAppend(a + [cart[i]], b);
      TotalPriceAppend(a, [cart[i]]);
      TotalPriceSingle(cart[i]);
    }
    assert TotalPrice(cart[i := item]) == TotalPrice(a) + Subtotal(item) + TotalPrice(b) by {
      assert cart[i := item] == (a + [item]) + b;
      TotalPriceAppend(a + [item], b);
      TotalPriceAppend(a, [item]);
      TotalPriceSingle(item);
    }
  }

  /** Dropping one line lowers the total by that line's subtotal. */
  lemma TotalPriceDrop(cart: seq<CartItem>, i: int)
    requires 0 <= i < |cart|
    ensures TotalPrice(cart[..i] + cart[i + 1..]) == TotalPrice(cart) - Subtotal(cart[i])
  {
    var a, b := cart[..i], cart[i + 1..];
    assert TotalPrice(cart) == TotalPrice(a) + Subtotal(cart[i]) + TotalPrice(b) by {
      SplitAt(cart, i);
      TotalPriceAppend(a + [cart[i]], b);
      TotalPriceAppend(a, [cart[i]]);
      TotalPriceSingle(cart[i]);
    }
    TotalPriceAppend(a, b);
  }

  /** With non-negative prices and quantities the total is never negative. */
  lemma {:induction false} TotalPriceNonNegative(cart: seq<CartItem>)
    requires forall i :: 0 <= i < |cart| ==> cart[i].priceValue >= 0 && cart[i].quantity >= 0
    ensures TotalPrice(cart) >= 0
    decreases |cart|
  {
    if cart != [] {
      TotalPriceNonNegative(cart[..|cart| - 1]);
      var last := cart[|cart| - 1];
      assert last.priceValue * last.quantity >= 0;
    }
  }

  /** Changing line `i` to `quantity` (not 0) leaves every other line and the order as they were. */
  lemma {:induction false} SetLineAt(cart: seq<CartItem>, i: int, quantity: int)
    requires Cart.UniqueIds(cart) && 0 <= i < |cart| && quantity != 0
    ensures Cart.UpdateQuantity(cart, cart[i].id, quantity) == cart[i := cart[i].(quantity := quantity)]
  {
    var r := Cart.SetQuantity(cart, cart[i].id, quantity);
    forall j | 0 <= j < |cart| ensures r[j] == cart[i := cart[i].(quantity := quantity)][j] {
      if j != i {
        assert cart[j].id != cart[i].id;
      }
    }
  }

  /** Adding `d` units to a line adds `d` unit prices to its subtotal. */
  lemma SubtotalShift(item: CartItem, d: int)
    ensures Subtotal(item.(quantity := item.quantity + d)) == Subtotal(item) + d * item.priceValue
  {
    assert item.priceValue * (item.quantity + d) == item.priceValue * item.quantity + d * item.priceValue;
  }

  /** Adding `d` units to line `i` moves the total by `d` unit prices and the count by `d`. */
  lemma {:induction false} ShiftLine(cart: seq<CartItem>, i: int, d: int)
    requires 0 <= i < |cart|
    ensures TotalPrice(cart[i := cart[i].(quantity := cart[i].quantity + d)]) == TotalPrice(cart) + d * cart[i].priceValue
    ensures Cart.CartCount(cart[i := cart[i].(quantity := cart[i].quantity + d)]) == Cart.CartCount(cart) + d
  {
    var item := cart[i].(quantity := cart[i].quantity + d);
    TotalPriceReplace(cart, i, item);
    SubtotalShift(cart[i], d);
    Cart.CountReplace(cart, i, item);
  }

  /** The − button on line `i` changes that line only: from one unit it removes
      the line (the rest keep their order), otherwise it takes one unit off. The
      total falls by one unit price and the count by one. */
  lemma {:induction false} MinusEffect(cart: seq<CartItem>, i: int)
    requires Cart.UniqueIds(cart) && 0 <= i < |cart|
    ensures MinusRequest(cart[i]) == QuantityRequest(cart[i].id, cart[i].quantity - 1)
    ensures var r := Cart.UpdateQuantity(cart, cart[i].id, cart[i].quantity - 1);
            cart[i].quantity == 1 ==> r == cart[..i] + cart[i + 1..]
    ensures var r := Cart.UpdateQuantity(cart, cart[i].id, cart[i].quantity - 1);
            cart[i].quantity != 1 ==> r == cart[i := cart[i].(quantity := cart[i].quantity - 1)]
    ensures var r := Cart.UpdateQuantity(cart, cart[i].id, cart[i].quantity - 1);
            TotalPrice(r) == TotalPrice(cart) - cart[i].priceValue
    ensures var r := Cart.UpdateQuantity(cart, cart[i].id, cart[i].quantity - 1);
            Cart.CartCount(r) == Cart.CartCount(cart) - 1
  {
    var item := cart[i];
    if item.quantity == 1 {
      Cart.RemoveIdAt(cart, i);
      TotalPriceDrop(cart, i);
      Cart.CountDrop(cart, i);
    } else {
      ShiftLine(cart, i, -1);
      SetLineAt(cart, i, item.quantity - 1);
    }
  }

  /** The + button on line `i` adds one unit to that line only: the total rises
      by one unit price and the count by one. */
  lemma {:induction false} PlusEffect(cart: seq<CartItem>, i: int)
    requires Cart.UniqueIds(cart) && 0 <= i < |cart| && cart[i].quantity >= 1
    ensures PlusRequest(cart[i]) == QuantityRequest(cart[i].id, cart[i].quantity + 1)
    ensures var r := Cart.UpdateQuantity(cart, cart[i].id, cart[i].quantity + 1);
            r == cart[i := cart[i].(quantity := cart[i].quantity + 1)]
    ensures var r := Cart.UpdateQuantity(cart, cart[i].id, cart[i].quantity + 1);
            TotalPrice(r) == TotalPrice(cart) + cart[i].priceValue
    ensures var r := Cart.UpdateQuantity(cart, cart[i].id, cart[i].quantity + 1);
            Cart.CartCount(r) == Cart.CartCount(cart) + 1
  {
    ShiftLine(cart, i, 1);
    SetLineAt(cart, i, cart[i].quantity + 1);
  }
}
