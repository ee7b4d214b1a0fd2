/** Client code driving the cart store and the checkout page through their contracts. */
module Scenarios {
  import opened Products
  import opened Storage
  import opened CartContext
  import opened CheckoutPage

  /** Add twice, set the quantity, reject a zero quantity, remove, reload. */
  method CartRoundTrip(p: Product)
  {
    var storage := new LocalStorage<seq<CartItem>>(map[]);
    var store := new CartProvider(storage);
    assert store.cart == [];
    store.AddToCart(p);
    store.AddToCart(p);
    AddTwiceToEmpty(p);
    assert store.cart == [CartItem(p, 2)];
    store.UpdateQuantity(p.id, 5);
    UpdateExisting([CartItem(p, 2)], p.id, 5, 0);
    assert store.cart == [CartItem(p, 5)];
    store.UpdateQuantity(p.id, 0);
    assert store.cart == [CartItem(p, 5)];
    store.RemoveFromCart(p.id);
    RemoveAt([CartItem(p, 5)], 0);
    assert store.cart == [];
    var reloaded := new CartProvider(storage);
    assert reloaded.cart == [];
  }

  /** Adding product a once and product b twice gives cartCount 3. */
  method CountAfterThreeAdds(a: Product, b: Product)
    requires a.id != b.id
  {
    var storage := new LocalStorage<seq<CartItem>>(map[]);
    var store := new CartProvider(storage);
    store.AddToCart(a);
    store.AddToCart(b);
    assert store.cart == [CartItem(a, 1), CartItem(b, 1)];
    store.AddToCart(b);
    AddExisting([CartItem(a, 1), CartItem(b, 1)], b, 1);
    assert store.CartCount() == 3;
  }

  /** An order with an empty address is refused and the stored cart stays. */
  method IncompleteFormKeepsSnapshot(p: Product)
  {
    var storage := new LocalStorage<seq<CartItem>>(map[]);
    var store := new CartProvider(storage);
    store.AddToCart(p);
    var page := new Checkout(store);
    page.HandleInputChange(Name, "buyer");
    page.HandlePlaceOrder();
    assert page.alertMessage == RequiredFieldsMessage;
    assert storage.items[CartKey] == [CartItem(p, 1)];
  }

  /**
   * Placing an order clears only the stored snapshot: the page's cart keeps its
   * entry and a reload starts empty.
   */
  method PlaceOrderKeepsMemoryCart(p: Product)
  {
    var storage := new LocalStorage<seq<CartItem>>(map[]);
    var store := new CartProvider(storage);
    store.AddToCart(p);
    var page := new Checkout(store);
    page.HandleInputChange(Name, "buyer");
    page.HandleInputChange(Address, "street");
    page.HandlePlaceOrder();
    assert page.alertMessage == OrderPlacedMessage;
    assert CartKey !in storage.items && store.cart == [CartItem(p, 1)];
    var reloaded := new CartProvider(storage);
    assert reloaded.cart == [];
  }

  /** After an order, the next change to the page's cart writes the old entries back. */
  method NextChangeRestoresSnapshot(p: Product)
  {
    var storage := new LocalStorage<seq<CartItem>>(map[CartKey := [CartItem(p, 1)]]);
    var store := new CartProvider(storage);
    var page := new Checkout(store);
    page.HandleInputChange(Name, "buyer");
    page.HandleInputChange(Address, "street");
    page.HandlePlaceOrder();
    assert CartKey !in storage.items;
    store.UpdateQuantity(p.id, 3);
    assert storage.items[CartKey] == store.cart && |store.cart| == 1;
  }
}
