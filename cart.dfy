/** The cart and favourites as values: the list updates that `addToCart`,
    `updateCartItemQuantity` and `toggleFavorite` hand to their state setters,
    the product lookup that `addToCart` starts with, and `cartCount`. */
module Cart {
  import opened Types

  /** The product ids present in a cart. */
  function Ids(cart: seq<CartItem>): (r: set<int>)
    ensures forall i :: 0 <= i < |cart| ==> cart[i].id in r
    ensures forall id :: id in r ==> exists i :: 0 <= i < |cart| && cart[i].id == id
  {
    if cart == [] then {} else {cart[0].id} + Ids(cart[1..])
  }

  /** At most one line per product id. */
  ghost predicate UniqueIds(cart: seq<CartItem>)
  {
    forall i, j :: 0 <= i < j < |cart| ==> cart[i].id != cart[j].id
  }

  /** Every line holds at least one unit. */
  ghost predicate PositiveQuantities(cart: seq<CartItem>)
  {
    forall i :: 0 <= i < |cart| ==> cart[i].quantity >= 1
  }

  /** `cartItems.reduce((sum, item) => sum + item.quantity, 0)`. */
  function CartCount(cart: seq<CartItem>): int
  {
    if cart == [] then 0 else cart[0].quantity + CartCount(cart[1..])
  }

  /** The quantity held for one product id: the sum over its lines (at most one). */
  function QuantityOf(cart: seq<CartItem>, id: int): int
  {
    if cart == [] then 0
    else (if cart[0].id == id then cart[0].quantity else 0) + QuantityOf(cart[1..], id)
  }

  /** `PRODUCTS.find((p) => p.id === id)`: the first product with that id. */
  function FindById(catalogue: seq<Product>, id: int): (r: Option<Product>)
    ensures r.None? <==> forall i :: 0 <= i < |catalogue| ==> catalogue[i].id != id
    ensures r.Some? ==> exists i :: 0 <= i < |catalogue| && catalogue[i] == r.value
                          && r.value.id == id
                          && forall j :: 0 <= j < i ==> catalogue[j].id != id
  {
    if catalogue == [] then None
    else if catalogue[0].id == id then Some(catalogue[0])
    else
      var r := FindById(catalogue[1..], id);
      if r.Some? then
        ghost var i :| 0 <= i < |catalogue[1..]| && catalogue[1..][i] == r.value
                       && r.value.id == id
                       && forall j :: 0 <= j < i ==> catalogue[1..][j].id != id;
        assert catalogue[i + 1] == r.value;
        r
      else r
  }

  /** The product `addToCart` acts on: with a truthy id the catalogue entry with that
      id (or nothing), otherwise the selected product (or nothing). JavaScript's 0 is
      falsy, and `None` stands for an omitted id. */
  function TargetProduct(catalogue: seq<Product>, productId: Option<int>, selected: Option<Product>): (r: Option<Product>)
    ensures productId.None? || productId.value == 0 ==> r == selected
    ensures productId.Some? && productId.value != 0 ==>
              && (r.Some? <==> exists i :: 0 <= i < |catalogue| && catalogue[i].id == productId.value)
              && (r.Some? ==> r.value in catalogue && r.value.id == productId.value)
  {
    if productId.Some? && productId.value != 0 then FindById(catalogue, productId.value) else selected
  }

  /** A new cart line snapshotting name, price, priceValue and the first image. */
  function NewItem(p: Product, quantity: int): CartItem
  {
    CartItem(p.id, p.name, p.price, p.priceValue, FirstImage(p), quantity)
  }

  /** `prevItems.map(...)` raising the quantity of the lines with that id. */
  function MergeQuantity(cart: seq<CartItem>, id: int, quantityToAdd: int): (r: seq<CartItem>)
    ensures |r| == |cart|
    ensures forall i :: 0 <= i < |cart| && cart[i].id != id ==> r[i] == cart[i]
    ensures forall i :: 0 <= i < |cart| && cart[i].id == id ==>
              r[i] == cart[i].(quantity := cart[i].quantity + quantityToAdd)
  {
    if cart == [] then []
    else
      var head := if cart[0].id == id then cart[0].(quantity := cart[0].quantity + quantityToAdd) else cart[0];
      [head] + MergeQuantity(cart[1..], id, quantityToAdd)
  }

  /** `prevItems.map(...)` overwriting the quantity of the lines with that id. */
  function SetQuantity(cart: seq<CartItem>, id: int, quantity: int): (r: seq<CartItem>)
    ensures |r| == |cart|
    ensures forall i :: 0 <= i < |cart| && cart[i].id != id ==> r[i] == cart[i]
    ensures forall i :: 0 <= i < |cart| && cart[i].id == id ==> r[i] == cart[i].(quantity := quantity)
  {
    if cart == [] then []
    else
      var head := if cart[0].id == id then cart[0].(quantity := quantity) else cart[0];
      [head] + SetQuantity(cart[1..], id, quantity)
  }

  /** `prevItems.filter((item) => item.id !== productId)`. */
  function RemoveId(cart: seq<CartItem>, id: int): (r: seq<CartItem>)
    ensures |r| <= |cart|
    ensures forall x :: x in r <==> x in cart && x.id != id
  {
    if cart == [] then []
    else if cart[0].id != id then [cart[0]] + RemoveId(cart[1..], id)
    else RemoveId(cart[1..], id)
  }

  /** The new cart list built by `addToCart` for a product that was found. */
  function AddItem(cart: seq<CartItem>, p: Product, quantityToAdd: int): seq<CartItem>
  {
    if p.id in Ids(cart) then MergeQuantity(cart, p.id, quantityToAdd)
    else cart + [NewItem(p, quantityToAdd)]
  }

  /** The new cart list built by `updateCartItemQuantity`. */
  function UpdateQuantity(cart: seq<CartItem>, id: int, quantity: int): seq<CartItem>
  {
    if quantity == 0 then RemoveId(cart, id) else SetQuantity(cart, id, quantity)
  }

  /** `toggleFavorite` on the favourites set. */
  function Toggle(favorites: set<int>, id: int): (r: set<int>)
    ensures id in r <==> id !in favorites
    ensures forall x :: x != id ==> (x in r <==> x in favorites)
  {
    if id in favorites then favorites - {id} else favorites + {id}
  }

  /** Toggling the same id twice restores the favourites. */
  lemma ToggleTwice(favorites: set<int>, id: int)
    ensures Toggle(Toggle(favorites, id), id) == favorites
  {
  }

  // ---------------------------------------------------------------------------
  // Quantity bookkeeping

  lemma {:induction false} QuantityOfAbsent(cart: seq<CartItem>, id: int)
    requires id !in Ids(cart)
    ensures QuantityOf(cart, id) == 0
  {
    if cart != [] {
      QuantityOfAbsent(cart[1..], id);
    }
  }

  lemma {:induction false} UniqueTail(cart: seq<CartItem>)
    requires cart != [] && UniqueIds(cart)
    ensures UniqueIds(cart[1..]) && cart[0].id !in Ids(cart[1..])
  {
  }

  /** The count splits into one id's quantity and the count of the other lines. */
  lemma {:induction false} CountSplit(cart: seq<CartItem>, id: int)
    ensures CartCount(cart) == QuantityOf(cart, id) + CartCount(RemoveId(cart, id))
  {
    if cart != [] {
      CountSplit(cart[1..], id);
      var rest := RemoveId(cart[1..], id);
      if cart[0].id != id {
        assert ([cart[0]] + rest)[1..] == rest;
      }
    }
  }

  lemma {:induction false} MergeQuantityOther(cart: seq<CartItem>, id: int, q: int, x: int)
    requires x != id
    ensures QuantityOf(MergeQuantity(cart, id, q), x) == QuantityOf(cart, x)
  {
    if cart != [] {
      MergeQuantityOther(cart[1..], id, q, x);
    }
  }

  lemma {:induction false} MergeQuantitySame(cart: seq<CartItem>, id: int, q: int)
    requires UniqueIds(cart) && id in Ids(cart)
    ensures QuantityOf(MergeQuantity(cart, id, q), id) == QuantityOf(cart, id) + q
  {
    UniqueTail(cart);
    if cart[0].id == id {
      QuantityOfAbsent(cart[1..], id);
      QuantityOfAbsent(MergeQuantity(cart[1..], id, q), id);
    } else {
      MergeQuantitySame(cart[1..], id, q);
    }
  }

  lemma {:induction false} MergeQuantityRemove(cart: seq<CartItem>, id: int, q: int)
    ensures RemoveId(MergeQuantity(cart, id, q), id) == RemoveId(cart, id)
  {
    if cart != [] {
      MergeQuantityRemove(cart[1..], id, q);
    }
  }

  lemma {:induction false} SetQuantityOther(cart: seq<CartItem>, id: int, q: int, x: int)
    requires x != id
    ensures QuantityOf(SetQuantity(cart, id, q), x) == QuantityOf(cart, x)
  {
    if cart != [] {
      SetQuantityOther(cart[1..], id, q, x);
    }
  }

  lemma {:induction false} SetQuantitySame(cart: seq<CartItem>, id: int, q: int)
    requires UniqueIds(cart) && id in Ids(cart)
    ensures QuantityOf(SetQuantity(cart, id, q), id) == q
  {
    UniqueTail(cart);
    if cart[0].id == id {
      QuantityOfAbsent(SetQuantity(cart[1..], id, q), id);
    } else {
      SetQuantitySame(cart[1..], id, q);
    }
  }

  lemma {:induction false} SetQuantityRemove(cart: seq<CartItem>, id: int, q: int)
    ensures RemoveId(SetQuantity(cart, id, q), id) == RemoveId(cart, id)
  {
    if cart != [] {
      SetQuantityRemove(cart[1..], id, q);
    }
  }

  lemma {:induction false} RemoveIdOther(cart: seq<CartItem>, id: int, x: int)
    requires x != id
    ensures QuantityOf(RemoveId(cart, id), x) == QuantityOf(cart, x)
  {
    if cart != [] {
      RemoveIdOther(cart[1..], id, x);
      var rest := RemoveId(cart[1..], id);
      if cart[0].id != id {
        assert ([cart[0]] + rest)[1..] == rest;
      }
    }
  }

  lemma {:induction false} RemoveIdUnique(cart: seq<CartItem>, id: int)
    requires UniqueIds(cart)
    ensures UniqueIds(RemoveId(cart, id))
  {
    if cart != [] {
      UniqueTail(cart);
      RemoveIdUnique(cart[1..], id);
      var rest := RemoveId(cart[1..], id);
      forall j | 0 <= j < |rest| ensures rest[j].id != cart[0].id {
        assert rest[j] in cart[1..];
      }
    }
  }

  /** Removing an id that has no line leaves the cart as it was. */
  lemma {:induction false} RemoveIdAbsent(cart: seq<CartItem>, id: int)
    requires id !in Ids(cart)
    ensures RemoveId(cart, id) == cart
  {
    if cart != [] {
      assert cart[0].id in Ids(cart);
      assert Ids(cart) == {cart[0].id} + Ids(cart[1..]);
      RemoveIdAbsent(cart[1..], id);
      assert cart == [cart[0]] + cart[1..];
    }
  }

  /** `filter` distributes over concatenation. */
  lemma {:induction false} RemoveIdAppend(a: seq<CartItem>, b: seq<CartItem>, id: int)
    ensures RemoveId(a + b, id) == RemoveId(a, id) + RemoveId(b, id)
  {
    if a == [] {
      assert a + b == b;
    } else {
      assert (a + b)[1..] == a[1..] + b;
      RemoveIdAppend(a[1..], b, id);
    }
  }

  /** Removing the id of the one line that carries it leaves the lines around it, in order. */
  lemma RemoveIdSplit(before: seq<CartItem>, x: CartItem, after: seq<CartItem>)
    requires x.id !in Ids(before) && x.id !in Ids(after)
    ensures RemoveId(before + [x] + after, x.id) == before + after
  {
    var id := x.id;
    assert RemoveId([x], id) == [] by {
      assert [x][1..] == [];
    }
    assert RemoveId(before + [x], id) == before by {
      RemoveIdAppend(before, [x], id);
      RemoveIdAbsent(before, id);
      assert before + [] == before;
    }
    assert RemoveId(before + [x] + after, id) == before + after by {
      RemoveIdAppend(before + [x], after, id);
      RemoveIdAbsent(after, id);
    }
  }

  /** With unique ids, removing a line's id removes exactly that line and keeps the order of the rest. */
  lemma RemoveIdAt(cart: seq<CartItem>, i: int)
    requires UniqueIds(cart) && 0 <= i < |cart|
    ensures RemoveId(cart, cart[i].id) == cart[..i] + cart[i + 1..]
  {
    var before, after := cart[..i], cart[i + 1..];
    assert cart[i].id !in Ids(before) by {
      forall k | 0 <= k < |before| ensures before[k].id != cart[i].id {
        assert before[k] == cart[k];
      }
    }
    assert cart[i].id !in Ids(after) by {
      forall k | 0 <= k < |after| ensures after[k].id != cart[i].id {
        assert after[k] == cart[i + 1 + k];
      }
    }
    assert cart == before + [cart[i]] + after;
    RemoveIdSplit(before, cart[i], after);
  }

  lemma IdsAppend(cart: seq<CartItem>, item: CartItem)
    ensures Ids(cart + [item]) == Ids(cart) + {item.id}
  {
    var r := cart + [item];
    forall id | id in Ids(cart) ensures id in Ids(r) {
      var i :| 0 <= i < |cart| && cart[i].id == id;
      assert r[i] == cart[i];
    }
    assert r[|cart|] == item;
    forall id | id in Ids(r) ensures id in Ids(cart) + {item.id} {
      var i :| 0 <= i < |r| && r[i].id == id;
      if i < |cart| {
        assert cart[i].id == id;
      }
    }
  }

  lemma {:induction false} QuantityOfAppend(cart: seq<CartItem>, item: CartItem, x: int)
    ensures QuantityOf(cart + [item], x) == QuantityOf(cart, x) + (if item.id == x then item.quantity else 0)
  {
    if cart == [] {
      assert cart + [item] == [item];
    } else {
      assert (cart + [item])[1..] == cart[1..] + [item];
      QuantityOfAppend(cart[1..], item, x);
    }
  }

  lemma {:induction false} CountConcat(a: seq<CartItem>, b: seq<CartItem>)
    ensures CartCount(a + b) == CartCount(a) + CartCount(b)
  {
    if a == [] {
      assert a + b == b;
    } else {
      assert (a + b)[1..] == a[1..] + b;
      CountConcat(a[1..], b);
    }
  }

  /** Replacing one line changes the count by the difference of the two quantities. */
  lemma CountReplace(cart: seq<CartItem>, i: int, item: CartItem)
    requires 0 <= i < |cart|
    ensures CartCount(cart[i := item]) == CartCount(cart) - cart[i].quantity + item.quantity
  {
    assert cart == cart[..i] + ([cart[i]] + cart[i + 1..]);
    assert cart[i := item] == cart[..i] + ([item] + cart[i + 1..]);
    CountConcat(cart[..i], [cart[i]] + cart[i + 1..]);
    CountConcat(cart[..i], [item] + cart[i + 1..]);
    assert ([cart[i]] + cart[i + 1..])[1..] == cart[i + 1..];
    assert ([item] + cart[i + 1..])[1..] == cart[i + 1..];
  }

  /** Dropping one line lowers the count by its quantity. */
  lemma CountDrop(cart: seq<CartItem>, i: int)
    requires 0 <= i < |cart|
    ensures CartCount(cart[..i] + cart[i + 1..]) == CartCount(cart) - cart[i].quantity
  {
    assert cart == cart[..i] + ([cart[i]] + cart[i + 1..]);
    CountConcat(cart[..i], [cart[i]] + cart[i + 1..]);
    CountConcat(cart[..i], cart[i + 1..]);
    assert ([cart[i]] + cart[i + 1..])[1..] == cart[i + 1..];
  }

  lemma {:induction false} CountAppend(cart: seq<CartItem>, item: CartItem)
    ensures CartCount(cart + [item]) == CartCount(cart) + item.quantity
  {
    if cart == [] {
      assert cart + [item] == [item];
    } else {
      assert (cart + [item])[1..] == cart[1..] + [item];
      CountAppend(cart[1..], item);
    }
  }

  // ---------------------------------------------------------------------------
  // What addToCart and updateCartItemQuantity do to the cart

  /** `addToCart` keeps product ids unique: an id already present is merged into
      its own line, and a new id is appended once. */
  lemma AddItemKeepsIdsUnique(cart: seq<CartItem>, p: Product, quantityToAdd: int)
    requires UniqueIds(cart)
    ensures UniqueIds(AddItem(cart, p, quantityToAdd))
    ensures Ids(AddItem(cart, p, quantityToAdd)) == Ids(cart) + {p.id}
  {
    var r := AddItem(cart, p, quantityToAdd);
    if p.id in Ids(cart) {
      assert forall i :: 0 <= i < |cart| ==> r[i].id == cart[i].id;
      forall id | id in Ids(r) ensures id in Ids(cart) {
        var i :| 0 <= i < |r| && r[i].id == id;
      }
    } else {
      IdsAppend(cart, NewItem(p, quantityToAdd));
    }
  }

  /** `addToCart` for a product already in the cart raises that line's quantity in
      place and leaves every other line as it was; for a new product it appends one
      line snapshotting the product. Quantities and the count grow by exactly
      `quantityToAdd`, for that product only. */
  lemma AddItemCorrect(cart: seq<CartItem>, p: Product, quantityToAdd: int)
    requires UniqueIds(cart)
    ensures var r := AddItem(cart, p, quantityToAdd);
            && (p.id in Ids(cart) ==>
                  && |r| == |cart|
                  && (forall i :: 0 <= i < |cart| && cart[i].id != p.id ==> r[i] == cart[i])
                  && (forall i :: 0 <= i < |cart| && cart[i].id == p.id ==>
                        r[i] == cart[i].(quantity := cart[i].quantity + quantityToAdd)))
            && (p.id !in Ids(cart) ==>
                  r == cart + [CartItem(p.id, p.name, p.price, p.priceValue, FirstImage(p), quantityToAdd)])
            && QuantityOf(r, p.id) == QuantityOf(cart, p.id) + quantityToAdd
            && (forall x :: x != p.id ==> QuantityOf(r, x) == QuantityOf(cart, x))
            && CartCount(r) == CartCount(cart) + quantityToAdd
            && (PositiveQuantities(cart) && quantityToAdd >= 1 ==> PositiveQuantities(r))
  {
    var r := AddItem(cart, p, quantityToAdd);
    if p.id in Ids(cart) {
      MergeQuantitySame(cart, p.id, quantityToAdd);
      forall x | x != p.id ensures QuantityOf(r, x) == QuantityOf(cart, x) {
        MergeQuantityOther(cart, p.id, quantityToAdd, x);
      }
      CountSplit(cart, p.id);
      CountSplit(r, p.id);
      MergeQuantityRemove(cart, p.id, quantityToAdd);
    } else {
      var item := NewItem(p, quantityToAdd);
      QuantityOfAppend(cart, item, p.id);
      forall x | x != p.id ensures QuantityOf(r, x) == QuantityOf(cart, x) {
        QuantityOfAppend(cart, item, x);
      }
      CountAppend(cart, item);
    }
  }

  /** Quantity 0: the lines with that id are dropped, the others kept in order. */
  lemma RemoveLineCorrect(cart: seq<CartItem>, id: int)
    requires UniqueIds(cart)
    ensures var r := RemoveId(cart, id);
            && UniqueIds(r)
            && Ids(r) == Ids(cart) - {id}
            && QuantityOf(r, id) == 0
            && (forall x :: x != id ==> QuantityOf(r, x) == QuantityOf(cart, x))
            && (id !in Ids(cart) ==> r == cart)
            && CartCount(r) == CartCount(cart) - QuantityOf(cart, id)
            && (PositiveQuantities(cart) ==> PositiveQuantities(r))
  {
    var r := RemoveId(cart, id);
    CountSplit(cart, id);
    RemoveIdUnique(cart, id);
    QuantityOfAbsent(r, id);
    forall x | x != id ensures QuantityOf(r, x) == QuantityOf(cart, x) {
      RemoveIdOther(cart, id, x);
    }
    RemoveIdIds(cart, id);
    if id !in Ids(cart) {
      RemoveIdAbsent(cart, id);
    }
    if PositiveQuantities(cart) {
      RemoveIdPositive(cart, id);
    }
  }

  lemma {:induction false} RemoveIdIds(cart: seq<CartItem>, id: int)
    ensures Ids(RemoveId(cart, id)) == Ids(cart) - {id}
  {
    if cart != [] {
      RemoveIdIds(cart[1..], id);
      var rest := RemoveId(cart[1..], id);
      if cart[0].id != id {
        assert ([cart[0]] + rest)[1..] == rest;
      }
    }
  }

  lemma RemoveIdPositive(cart: seq<CartItem>, id: int)
    requires PositiveQuantities(cart)
    ensures PositiveQuantities(RemoveId(cart, id))
  {
    var r := RemoveId(cart, id);
    forall i | 0 <= i < |r| ensures r[i].quantity >= 1 {
      assert r[i] in cart;
    }
  }

  /** Setting a quantity keeps every line's id, so the ids and their uniqueness. */
  lemma SetLineIds(cart: seq<CartItem>, id: int, quantity: int)
    requires UniqueIds(cart)
    ensures UniqueIds(SetQuantity(cart, id, quantity))
    ensures Ids(SetQuantity(cart, id, quantity)) == Ids(cart)
    ensures PositiveQuantities(cart) && quantity >= 1 ==> PositiveQuantities(SetQuantity(cart, id, quantity))
  {
    var r := SetQuantity(cart, id, quantity);
    assert UniqueIds(r) by {
      assert forall i :: 0 <= i < |cart| ==> r[i].id == cart[i].id;
    }
    forall x | x in Ids(r) ensures x in Ids(cart) {
      var i :| 0 <= i < |r| && r[i].id == x;
      assert cart[i].id == x;
    }
    forall x | x in Ids(cart) ensures x in Ids(r) {
      var i :| 0 <= i < |cart| && cart[i].id == x;
      assert r[i].id == x;
    }
  }

  /** A non-zero quantity: the lines with that id take exactly that quantity, the others stay as they were. */
  lemma SetLineCorrect(cart: seq<CartItem>, id: int, quantity: int)
    requires UniqueIds(cart)
    ensures UniqueIds(SetQuantity(cart, id, quantity))
    ensures Ids(SetQuantity(cart, id, quantity)) == Ids(cart)
    ensures QuantityOf(SetQuantity(cart, id, quantity), id) == (if id in Ids(cart) then quantity else 0)
    ensures forall x :: x != id ==> QuantityOf(SetQuantity(cart, id, quantity), x) == QuantityOf(cart, x)
    ensures id !in Ids(cart) ==> SetQuantity(cart, id, quantity) == cart
    ensures CartCount(SetQuantity(cart, id, quantity))
            == CartCount(cart) - QuantityOf(cart, id) + QuantityOf(SetQuantity(cart, id, quantity), id)
    ensures PositiveQuantities(cart) && quantity >= 1 ==> PositiveQuantities(SetQuantity(cart, id, quantity))
  {
    var r := SetQuantity(cart, id, quantity);
    SetLineIds(cart, id, quantity);
    assert CartCount(r) == CartCount(cart) - QuantityOf(cart, id) + QuantityOf(r, id) by {
      CountSplit(cart, id);
      CountSplit(r, id);
      SetQuantityRemove(cart, id, quantity);
    }
    if id in Ids(cart) {
      SetQuantitySame(cart, id, quantity);
    } else {
      assert r == cart;
      QuantityOfAbsent(cart, id);
    }
    forall x | x != id ensures QuantityOf(r, x) == QuantityOf(cart, x) {
      SetQuantityOther(cart, id, quantity, x);
    }
  }

  /** `updateCartItemQuantity`: quantity 0 removes that id's line and keeps the rest
      in order; any other quantity overwrites (not adds to) that line's quantity; no
      other line changes, ids stay unique, and an absent id leaves the cart as it is. */
  lemma UpdateQuantityCorrect(cart: seq<CartItem>, id: int, quantity: int)
    requires UniqueIds(cart)
    ensures var r := UpdateQuantity(cart, id, quantity);
            && UniqueIds(r)
            && Ids(r) == (if quantity == 0 then Ids(cart) - {id} else Ids(cart))
            && QuantityOf(r, id) == (if quantity == 0 || id !in Ids(cart) then 0 else quantity)
            && (forall x :: x != id ==> QuantityOf(r, x) == QuantityOf(cart, x))
            && (id !in Ids(cart) ==> r == cart)
            && (quantity == 0 ==> forall x :: x in r <==> x in cart && x.id != id)
            && (quantity != 0 ==>
                  && |r| == |cart|
                  && (forall i :: 0 <= i < |cart| && cart[i].id != id ==> r[i] == cart[i])
                  && (forall i :: 0 <= i < |cart| && cart[i].id == id ==> r[i] == cart[i].(quantity := quantity)))
            && CartCount(r) == CartCount(cart) - QuantityOf(cart, id) + QuantityOf(r, id)
            && (PositiveQuantities(cart) && quantity >= 0 ==> PositiveQuantities(r))
  {
    if quantity == 0 {
      RemoveLineCorrect(cart, id);
    } else {
      SetLineCorrect(cart, id, quantity);
    }
  }

  /** Adding the same product twice, one unit each time, gives one line of two units. */
  lemma AddTwiceMerges(p: Product)
    ensures AddItem(AddItem([], p, 1), p, 1) == [NewItem(p, 2)]
    ensures CartCount(AddItem(AddItem([], p, 1), p, 1)) == 2
  {
    assert Ids([NewItem(p, 1)]) == {p.id};
  }
}
