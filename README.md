# Cart store and checkout of a storefront demo

This project models the state logic of a browser storefront demo: the cart store
(`CartProvider` in `src/Context/CartContext.tsx`) and the checkout page
(`src/components/CheckoutPage.tsx`), plus the cart badge rule of the navigation bar.

- **Cart store.** The cart is an ordered sequence of entries, each a product plus a
  quantity (`CartContext.CartItem`). Each store operation replaces the cart with a new
  sequence through `setCart`. These replacements are pure functions here:
  `AddProduct` (addToCart: find, then map or append), `UpdateQuantityOf`
  (updateQuantity: a guard, then map), `RemoveProduct` (removeFromCart: filter) and
  `Count` (cartCount: a reduce). The store itself is the class `CartProvider`. Its
  `cart` field is replaced by those functions. After each change the whole cart is
  written to storage under the key `"cart"`. At start-up the cart is read back from
  that key, or is empty when the key is missing.
- **Invariant.** `WellFormed` means at most one entry per product id and every
  quantity at least 1. All three mutators preserve it. The source's `map` updates
  every entry with the id, so the functions do the same. The "exactly one entry
  changes" lemmas assume unique ids, which the store keeps.
- **Storage.** `Storage.LocalStorage<V>` is the browser's key-value store. It holds
  already-deserialised values.
- **Checkout.** `Total` is totalPrice, the sum of price × quantity. `WithField` is
  the form update done by handleInputChange. The class `CheckoutPage.Checkout`
  holds the form, the alert message and the alert flag. `HandlePlaceOrder` is the
  guarded transition. An empty name or address gives the required-fields alert and
  nothing else changes. Otherwise it gives the success alert and removes the stored
  `"cart"` key. The in-memory cart is never changed. This inconsistency is kept on
  purpose. `Scenarios.PlaceOrderKeepsMemoryCart` shows it: after a successful
  order the page's cart still has its entries and a reload starts empty.
  `Scenarios.NextChangeRestoresSnapshot` shows that the next cart change writes
  the in-memory cart, which still holds the entries from before the order, back
  under `cart`.
- `Scenarios` has client methods that drive the classes through their contracts.
  They cover the add-twice / set-5 / remove sequence and the checkout sequence.

Three behaviours of the code that the model keeps as they are:

- An unparseable stored cart is not modelled: CartContext.tsx:22 calls `JSON.parse`
  without a guard, so the program would throw there.
- Placing an order removes only the stored snapshot (CheckoutPage.tsx:35); the
  in-memory cart keeps its entries.
- Ids are not assumed unique: the `map` in addToCart and updateQuantity updates
  every entry with the id. The model does the same and proves that the store's
  operations keep ids unique when they start unique.

Helper functions with no contract of their own (`SumBy`, `Count`, `Total`,
`LineTotal`, `QuantityOf`, `FieldValue`, `Complete`, `CartProvider.CartCount`,
`CartProvider.Persisted`, `Checkout.TotalPrice`) are described by the lemmas below.

## Model

| member | source | states |
|---|---|---|
| CartContext.Find | Flipkart-clone-07-03-2025/src/Context/CartContext.tsx:33 | find succeeds exactly when some entry has the id; the position it gives holds that id and no earlier entry does |
| CartContext.AddProduct | Flipkart-clone-07-03-2025/src/Context/CartContext.tsx:31-41 | after addToCart the product's id is in the cart; the length stays the same when the id was present and grows by one when it was not |
| CartContext.UpdateQuantityOf | Flipkart-clone-07-03-2025/src/Context/CartContext.tsx:43-50 | updateQuantity never changes the length, and every entry keeps its product |
| CartContext.RemoveProduct | Flipkart-clone-07-03-2025/src/Context/CartContext.tsx:52-54 | after removeFromCart no entry has the id; every remaining entry was in the cart; every entry with another id stays |
| CartContext.SumByConcat | Flipkart-clone-07-03-2025/src/Context/CartContext.tsx:29 | the reduce-sum of a concatenation is the sum of the two parts' sums |
| CartContext.SumByUpdate | Flipkart-clone-07-03-2025/src/Context/CartContext.tsx:29 | replacing one entry changes a reduce-sum by exactly the difference between the new and old entry's terms |
| CartContext.SumByDelete | Flipkart-clone-07-03-2025/src/Context/CartContext.tsx:29 | deleting one entry lowers a reduce-sum by exactly that entry's term |
| CartContext.CountBounds | Flipkart-clone-07-03-2025/src/Context/CartContext.tsx:29 | with positive quantities, cartCount is at least the number of entries, and it is positive for a non-empty cart |
| CartContext.CountEmpty | Flipkart-clone-07-03-2025/src/Context/CartContext.tsx:29 | cartCount of an empty cart is 0 |
| CartContext.CountOfSingles | Flipkart-clone-07-03-2025/src/Context/CartContext.tsx:29 | when every quantity is 1, cartCount equals the number of entries |
| CartContext.AddExisting | Flipkart-clone-07-03-2025/src/Context/CartContext.tsx:33-38 | adding a product already present (unique ids) yields the same sequence with only that entry's quantity raised by exactly 1 |
| CartContext.AddNew | Flipkart-clone-07-03-2025/src/Context/CartContext.tsx:33-39 | adding an absent product keeps the old cart as a prefix and ends with that product at quantity 1 |
| CartContext.AddKeepsPositive | Flipkart-clone-07-03-2025/src/Context/CartContext.tsx:31-41 | addToCart keeps every quantity at least 1 on any cart with positive quantities, unique ids or not |
| CartContext.AddPreservesWellFormed | Flipkart-clone-07-03-2025/src/Context/CartContext.tsx:31-41 | addToCart keeps ids unique and all quantities at least 1 |
| CartContext.CountAdd | Flipkart-clone-07-03-2025/src/Context/CartContext.tsx:29-41 | with unique ids, every addToCart raises cartCount by exactly 1 |
| CartContext.AddTwiceToEmpty | Flipkart-clone-07-03-2025/src/Context/CartContext.tsx:31-41 | adding one product twice to an empty cart gives a single entry with quantity 2 |
| CartContext.UpdateBelowOne | Flipkart-clone-07-03-2025/src/Context/CartContext.tsx:44 | a quantity below 1 leaves the cart exactly unchanged |
| CartContext.UpdateExisting | Flipkart-clone-07-03-2025/src/Context/CartContext.tsx:45-49 | a quantity of at least 1 sets the matching entry's quantity to exactly that value, and nothing else changes |
| CartContext.UpdateAbsent | Flipkart-clone-07-03-2025/src/Context/CartContext.tsx:45-49 | updating an id not in the cart leaves the cart unchanged and creates no entry |
| CartContext.UpdateKeepsPositive | Flipkart-clone-07-03-2025/src/Context/CartContext.tsx:43-50 | updateQuantity keeps every quantity at least 1 on any cart with positive quantities, unique ids or not |
| CartContext.UpdatePreservesWellFormed | Flipkart-clone-07-03-2025/src/Context/CartContext.tsx:43-50 | updateQuantity keeps ids unique and all quantities at least 1 |
| CartContext.CountUpdate | Flipkart-clone-07-03-2025/src/Context/CartContext.tsx:43-50 | a valid update moves cartCount by the new quantity minus the old one |
| CartContext.RemoveConcat | Flipkart-clone-07-03-2025/src/Context/CartContext.tsx:53 | filtering works piecewise over a concatenation, so the entries that stay keep their relative order |
| CartContext.RemoveAbsent | Flipkart-clone-07-03-2025/src/Context/CartContext.tsx:53 | removing an id not in the cart leaves the cart unchanged, contents and order |
| CartContext.RemoveAt | Flipkart-clone-07-03-2025/src/Context/CartContext.tsx:52-54 | with unique ids, removing entry k's id deletes exactly entry k and keeps the rest in order |
| CartContext.RemoveKeepsPositive | Flipkart-clone-07-03-2025/src/Context/CartContext.tsx:52-54 | removeFromCart keeps every quantity at least 1 on any cart with positive quantities, unique ids or not |
| CartContext.RemovePreservesWellFormed | Flipkart-clone-07-03-2025/src/Context/CartContext.tsx:52-54 | removeFromCart keeps ids unique and all quantities at least 1 |
| CartContext.CountRemove | Flipkart-clone-07-03-2025/src/Context/CartContext.tsx:52-54 | removing an entry lowers cartCount by exactly that entry's quantity |
| CartContext.CartProvider.constructor | Flipkart-clone-07-03-2025/src/Context/CartContext.tsx:20-27 | the initial cart is the stored `cart` value, or empty when the key is missing, and it is then written back under `cart` |
| CartContext.CartProvider.AddToCart | Flipkart-clone-07-03-2025/src/Context/CartContext.tsx:31-41 | the cart becomes AddProduct of the old cart and is written under `cart` with other keys untouched; positive quantities stay positive; well-formedness is kept and cartCount rises by 1 |
| CartContext.CartProvider.UpdateQuantity | Flipkart-clone-07-03-2025/src/Context/CartContext.tsx:43-50 | a quantity below 1 changes neither the cart nor storage; otherwise the cart becomes UpdateQuantityOf of the old cart and is persisted; positive quantities stay positive; well-formedness is kept |
| CartContext.CartProvider.RemoveFromCart | Flipkart-clone-07-03-2025/src/Context/CartContext.tsx:52-54 | the cart becomes RemoveProduct of the old cart and is persisted; positive quantities stay positive; well-formedness is kept |
| Storage.LocalStorage.GetItem | Flipkart-clone-07-03-2025/src/Context/CartContext.tsx:21 | getItem returns the stored value exactly when the key is present |
| Storage.LocalStorage.SetItem | Flipkart-clone-07-03-2025/src/Context/CartContext.tsx:26 | setItem overwrites the key and leaves every other key unchanged |
| Storage.LocalStorage.RemoveItem | Flipkart-clone-07-03-2025/src/components/CheckoutPage.tsx:35 | removeItem drops the key and leaves every other key unchanged |
| CheckoutPage.TotalEmpty | Flipkart-clone-07-03-2025/src/components/CheckoutPage.tsx:18 | totalPrice of an empty cart is 0 |
| CheckoutPage.TotalNonNegative | Flipkart-clone-07-03-2025/src/components/CheckoutPage.tsx:18 | with non-negative prices and positive quantities, totalPrice is not negative |
| CheckoutPage.TotalAddExisting | Flipkart-clone-07-03-2025/src/components/CheckoutPage.tsx:18 | adding a product already present raises totalPrice by the stored entry's own price |
| CheckoutPage.TotalAddNew | Flipkart-clone-07-03-2025/src/components/CheckoutPage.tsx:18 | adding a new product raises totalPrice by its price |
| CheckoutPage.TotalUpdate | Flipkart-clone-07-03-2025/src/components/CheckoutPage.tsx:18 | a valid quantity update moves totalPrice by the price times the change in quantity |
| CheckoutPage.TotalRemove | Flipkart-clone-07-03-2025/src/components/CheckoutPage.tsx:18 | removing an entry lowers totalPrice by exactly its price × quantity |
| CheckoutPage.WithField | Flipkart-clone-07-03-2025/src/components/CheckoutPage.tsx:20-25 | a form change sets the named field to the value and leaves the other fields unchanged |
| CheckoutPage.Checkout.constructor | Flipkart-clone-07-03-2025/src/components/CheckoutPage.tsx:10-16 | the form starts with empty name and address and payment method "Credit Card"; the alert starts hidden with an empty message |
| CheckoutPage.Checkout.HandleInputChange | Flipkart-clone-07-03-2025/src/components/CheckoutPage.tsx:20-25 | called only while the cart is non-empty, since the form is rendered only then (line 44); only the named form field changes and the alert state stays as it was |
| CheckoutPage.Checkout.HandlePlaceOrder | Flipkart-clone-07-03-2025/src/components/CheckoutPage.tsx:27-39 | called only while the cart is non-empty, since the Place Order button is rendered only then (line 44). The alert is shown. If name or address is empty, the message is the required-fields text and storage is unchanged. Otherwise the message is the success text and only the `cart` key is removed. The in-memory cart and the form are unchanged either way |
| CheckoutPage.Checkout.CloseAlert | Flipkart-clone-07-03-2025/src/components/CheckoutPage.tsx:128 | closing the alert hides it and changes nothing else |
| Navbar.CartBadge | Flipkart-clone-07-03-2025/src/components/Navbar.tsx:140-142 | the badge is hidden exactly when the count is not positive, reads "9+" above 9, and otherwise is the single digit of the count |

## Left out

- JSON serialisation: storage holds already-deserialised carts. So a malformed snapshot is not modelled; the code at CartContext.tsx:22 would throw on it. Also not modelled: an empty string stored under `cart`, which the code treats as no cart. The serialise/deserialise round trip is left out for the same reason.
- React scheduling: in the source, a `useEffect` hook with the dependency list `[cart]` (CartContext.tsx:25-27) writes the cart after mount and after every render in which `cart` changed. Here the constructor and each mutator that replaces the cart do that write synchronously. Update batching and re-rendering are left out.
- CartContext.CartProvider.UpdateQuantity: quantities and prices are whole integers. JavaScript numbers that are fractional or NaN are not modelled. A NaN quantity would pass the `< 1` guard in the source.
- CartContext.CountAdd: the +1 holds only when ids are unique. With duplicate ids, such as a hand-edited snapshot, the source's `map` bumps every duplicate, and the model does the same.
- handleInputChange is modelled for the three form controls that raise change events (name, address, payment method). Other event target names cannot occur.
- The `setTimeout` redirect after an order, `toLocaleString` currency formatting, JSX rendering, styling and routing.
- `useCart`'s error when no provider is present. The model passes the store to the checkout page directly.
- Product display fields beyond name and image. data/products is not part of this model.
- The wishlist store: WishlistContext is not part of this model. WishlistPage, App and HomePage are display and composition. ProfilePage is out of scope: its edit form, `handleSave` writing the `user` key and `handleLogout` removing it (ProfilePage.tsx:46-72) are not modelled. The same holds for the rest of Navbar: search, dropdowns, and the cross-tab `storage` listener for the `user` key.
- Storage holds only cart values: `LocalStorage<seq<CartItem>>` gives every key a cart, while the program's store also holds the `user` profile (Navbar.tsx:25, ProfilePage.tsx:65). No proved property depends on other keys' values; the model only shows that writes to `cart` leave other keys untouched.
