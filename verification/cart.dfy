/** The shopping cart (src/services/cart-service.ts): the list of cart items kept under the
    AsyncStorage key 'shopping_cart'. Every operation reads the stored list, changes it and
    writes it back. */
module Cart {
  import opened Common
  import opened Storage
  import opened Products

  const CartKey := "shopping_cart"

  datatype CartItem = CartItem(product: Product, quantity: int)

  /** The item is for the product with that id. */
  function SameId(id: string): CartItem -> bool
  {
    (item: CartItem) => item.product.id == id
  }

  /** The item is for another product. */
  function OtherId(id: string): CartItem -> bool
  {
    (item: CartItem) => item.product.id != id
  }

  /** No two items are for the same product id. */
  predicate DistinctProducts(cart: seq<CartItem>)
  {
    forall i, j :: 0 <= i < j < |cart| ==> cart[i].product.id != cart[j].product.id
  }

  /** Every item holds at least one unit. */
  predicate PositiveQuantities(cart: seq<CartItem>)
  {
    forall i :: 0 <= i < |cart| ==> cart[i].quantity > 0
  }

  /** The sum of the quantities. */
  function ItemCount(cart: seq<CartItem>): int
  {
    if cart == [] then 0 else cart[0].quantity + ItemCount(cart[1..])
  }

  /** The sum of price times quantity. */
  function Total(cart: seq<CartItem>): real
  {
    if cart == [] then 0.0 else cart[0].product.price * cart[0].quantity as real + Total(cart[1..])
  }

  lemma {:induction false} ItemCountUpdate(cart: seq<CartItem>, k: nat, item: CartItem)
    requires k < |cart|
    ensures ItemCount(cart[k := item]) == ItemCount(cart) - cart[k].quantity + item.quantity
  {
    if k == 0 {
      assert cart[k := item][1..] == cart[1..];
    } else {
      assert cart[k := item][1..] == cart[1..][k - 1 := item];
      ItemCountUpdate(cart[1..], k - 1, item);
    }
  }

  lemma {:induction false} ItemCountAppend(cart: seq<CartItem>, item: CartItem)
    ensures ItemCount(cart + [item]) == ItemCount(cart) + item.quantity
  {
    if cart != [] {
      assert (cart + [item])[1..] == cart[1..] + [item];
      ItemCountAppend(cart[1..], item);
    }
  }

  lemma {:induction false} TotalUpdate(cart: seq<CartItem>, k: nat, item: CartItem)
    requires k < |cart|
    ensures Total(cart[k := item]) ==
      Total(cart) - cart[k].product.price * cart[k].quantity as real + item.product.price * item.quantity as real
  {
    if k == 0 {
      assert cart[k := item][1..] == cart[1..];
    } else {
      assert cart[k := item][1..] == cart[1..][k - 1 := item];
      TotalUpdate(cart[1..], k - 1, item);
    }
  }

  lemma {:induction false} TotalAppend(cart: seq<CartItem>, item: CartItem)
    ensures Total(cart + [item]) == Total(cart) + item.product.price * item.quantity as real
  {
    if cart != [] {
      assert (cart + [item])[1..] == cart[1..] + [item];
      TotalAppend(cart[1..], item);
    }
  }

  /** Removing the items of one product keeps the other items distinct. */
  lemma {:induction false} FilterKeepsDistinct(cart: seq<CartItem>, id: string)
    requires DistinctProducts(cart)
    ensures DistinctProducts(Filter(cart, OtherId(id)))
  {
    if cart != [] {
      FilterKeepsDistinct(cart[1..], id);
      var rest := Filter(cart[1..], OtherId(id));
      forall j | 0 <= j < |rest|
        ensures rest[j].product.id != cart[0].product.id
      {
        var k :| 0 <= k < |cart[1..]| && cart[1..][k] == rest[j];
        assert cart[k + 1] == rest[j];
      }
    }
  }

  class CartService {
    /** The 'shopping_cart' entry of AsyncStorage. */
    const store: StoredValue<seq<CartItem>>

    constructor (store: StoredValue<seq<CartItem>>)
      ensures this.store == store
    {
      this.store := store;
    }

    /** `getCart`: the stored list; nothing stored or unreadable text reads as the empty cart. */
    function GetCart(): (r: seq<CartItem>)
      reads this, store
      ensures !store.content.Saved? ==> r == []
      ensures store.content.Saved? ==> r == store.content.value
    {
      match ParseOrNull(store.content)
      case None => []
      case Some(cart) => cart
    }

    /** `getCartTotal`. */
    function CartTotal(): (r: real)
      reads this, store
      ensures GetCart() == [] ==> r == 0.0
    {
      Total(GetCart())
    }

    /** `getCartItemCount`. */
    function CartItemCount(): (r: int)
      reads this, store
      ensures GetCart() == [] ==> r == 0
    {
      ItemCount(GetCart())
    }

    /** `addToCart`: the first item for the product's id gets one more unit, or the product is
        appended with quantity 1; nothing else changes. The count rises by exactly one, the
        total by the unit price, and distinct products stay distinct. */
    method AddToCart(product: Product) returns (cart: seq<CartItem>)
      modifies store
      ensures store.content == Saved(cart)
      ensures FirstMatch(old(GetCart()), SameId(product.id)).Some? ==>
        var k := FirstMatch(old(GetCart()), SameId(product.id)).value;
        var before := old(GetCart());
        && cart == before[k := before[k].(quantity := before[k].quantity + 1)]
        && Total(cart) == Total(before) + before[k].product.price
      ensures FirstMatch(old(GetCart()), SameId(product.id)).None? ==>
        cart == old(GetCart()) + [CartItem(product, 1)] && Total(cart) == Total(old(GetCart())) + product.price
      ensures ItemCount(cart) == ItemCount(old(GetCart())) + 1
      ensures FirstMatch(cart, SameId(product.id)).Some?
      ensures DistinctProducts(old(GetCart())) ==> DistinctProducts(cart)
      ensures PositiveQuantities(old(GetCart())) ==> PositiveQuantities(cart)
    {
      cart := GetCart();
      var existing := Find(cart, SameId(product.id));
      if existing.Some? {
        var k := existing.value;
        var item := cart[k].(quantity := cart[k].quantity + 1);
        ItemCountUpdate(cart, k, item);
        TotalUpdate(cart, k, item);
        cart := cart[k := item];
        assert SameId(product.id)(cart[k]);
      } else {
        var item := CartItem(product, 1);
        ItemCountAppend(cart, item);
        TotalAppend(cart, item);
        cart := cart + [item];
        assert SameId(product.id)(cart[|cart| - 1]);
      }
      store.SetItem(cart);
    }

    /** `removeFromCart`: every item for that id goes, the others stay in order. */
    method RemoveFromCart(productId: string) returns (cart: seq<CartItem>)
      modifies store
      ensures store.content == Saved(cart)
      ensures cart == Filter(old(GetCart()), OtherId(productId))
      ensures forall i :: 0 <= i < |cart| ==> cart[i].product.id != productId && cart[i] in old(GetCart())
      ensures forall i :: 0 <= i < |old(GetCart())| && old(GetCart())[i].product.id != productId ==> old(GetCart())[i] in cart
      ensures DistinctProducts(old(GetCart())) ==> DistinctProducts(cart)
      ensures PositiveQuantities(old(GetCart())) ==> PositiveQuantities(cart)
    {
      cart := GetCart();
      if DistinctProducts(cart) {
        FilterKeepsDistinct(cart, productId);
      }
      cart := Filter(cart, OtherId(productId));
      store.SetItem(cart);
    }

    /** `updateQuantity`: for an unknown id nothing is written and the cart is returned as
        read; a quantity of zero or less removes the product; otherwise the first item for the
        id gets the new quantity. */
    method UpdateQuantity(productId: string, quantity: int) returns (cart: seq<CartItem>)
      modifies store
      ensures FirstMatch(old(GetCart()), SameId(productId)).None? ==>
        cart == old(GetCart()) && store.content == old(store.content)
      ensures FirstMatch(old(GetCart()), SameId(productId)).Some? && quantity <= 0 ==>
        cart == Filter(old(GetCart()), OtherId(productId)) && store.content == Saved(cart)
      ensures FirstMatch(old(GetCart()), SameId(productId)).Some? && quantity > 0 ==>
        var k := FirstMatch(old(GetCart()), SameId(productId)).value;
        var before := old(GetCart());
        && cart == before[k := before[k].(quantity := quantity)]
        && store.content == Saved(cart)
        && ItemCount(cart) == ItemCount(before) - before[k].quantity + quantity
      ensures DistinctProducts(old(GetCart())) ==> DistinctProducts(cart)
      ensures PositiveQuantities(old(GetCart())) ==> PositiveQuantities(cart)
    {
      cart := GetCart();
      var item := Find(cart, SameId(productId));
      if item.Some? {
        if quantity <= 0 {
          cart := RemoveFromCart(productId);
          return;
        }
        var k := item.value;
        ItemCountUpdate(cart, k, cart[k].(quantity := quantity));
        cart := cart[k := cart[k].(quantity := quantity)];
        store.SetItem(cart);
      }
    }

    /** `clearCart`: the empty list is stored, so the total and the item count are zero. */
    method ClearCart()
      modifies store
      ensures store.content == Saved([])
      ensures GetCart() == [] && CartTotal() == 0.0 && CartItemCount() == 0
    {
      store.SetItem([]);
    }
  }
}
