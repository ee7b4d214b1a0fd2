/**
 * The cart store (`CartProvider`): an ordered sequence of cart entries, each a
 * product plus a quantity, persisted under the storage key "cart".
 *
 * The transformations the store applies through `setCart` are pure functions
 * over the entry sequence (AddProduct, UpdateQuantityOf, RemoveProduct, Count);
 * the store itself is the class CartProvider, whose methods replace its `cart`
 * field with the result and write the whole cart back to storage.
 */
module CartContext {
  import opened Wrappers
  import opened Products
  import opened Storage

  /** The storage key the cart snapshot lives under. */
  const CartKey: string := "cart"

  /** `CartItem extends Product` with a quantity. */
  datatype CartItem = CartItem(product: Product, quantity: int)

  /** At most one entry per product id. */
  predicate UniqueIds(s: seq<CartItem>)
  {
    forall i, j :: 0 <= i < |s| && 0 <= j < |s| && i != j ==> s[i].product.id != s[j].product.id
  }

  /** Every entry has quantity at least 1. */
  predicate AllPositive(s: seq<CartItem>)
  {
    forall i :: 0 <= i < |s| ==> s[i].quantity >= 1
  }

  /** The invariant the store's operations keep. */
  predicate WellFormed(s: seq<CartItem>)
  {
    UniqueIds(s) && AllPositive(s)
  }

  predicate HasProduct(s: seq<CartItem>, id: int)
  {
    exists i :: 0 <= i < |s| && s[i].product.id == id
  }

  /**
   * `prev.find(item => item.id === id)`: the position of the first entry with
   * that id, or nothing.
   */
  function Find(s: seq<CartItem>, id: int): (r: Option<nat>)
    ensures r.Some? <==> HasProduct(s, id)
    ensures r.Some? ==> r.value < |s| && s[r.value].product.id == id
    ensures r.Some? ==> forall j :: 0 <= j < r.value ==> s[j].product.id != id
  {
    if s == [] then None
    else if s[0].product.id == id then Some(0)
    else match Find(s[1..], id)
      case None => None
      case Some(k) => Some(k + 1)
  }

  /**
   * addToCart's update: when some entry has the product's id, every entry with
   * that id gets its quantity raised by one (keeping its own product fields);
   * otherwise the product is appended with quantity 1.
   */
  function AddProduct(s: seq<CartItem>, p: Product): (r: seq<CartItem>)
    ensures HasProduct(r, p.id)
    ensures |r| == if HasProduct(s, p.id) then |s| else |s| + 1
  {
    match Find(s, p.id)
    case Some(k) =>
      var r := seq(|s|, i requires 0 <= i < |s| =>
        if s[i].product.id == p.id then s[i].(quantity := s[i].quantity + 1) else s[i]);
      assert r[k].product.id == p.id;
      r
    case None =>
      var r := s + [CartItem(p, 1)];
      assert r[|s|].product.id == p.id;
      r
  }

  /**
   * updateQuantity's update: a quantity below 1 is ignored; otherwise every
   * entry with that id gets exactly that quantity.
   */
  function UpdateQuantityOf(s: seq<CartItem>, id: int, quantity: int): (r: seq<CartItem>)
    ensures |r| == |s|
    ensures forall i :: 0 <= i < |s| ==> r[i].product == s[i].product
  {
    if quantity < 1 then s
    else
      seq(|s|, i requires 0 <= i < |s| =>
        if s[i].product.id == id then s[i].(quantity := quantity) else s[i])
  }

  /** removeFromCart's update: `prev.filter(item => item.id !== id)`. */
  function RemoveProduct(s: seq<CartItem>, id: int): (r: seq<CartItem>)
    ensures |r| <= |s|
    ensures !HasProduct(r, id)
    ensures forall x :: x in r ==> x in s
    ensures forall x :: x in s && x.product.id != id ==> x in r
  {
    if s == [] then []
    else (if s[0].product.id == id then [] else [s[0]]) + RemoveProduct(s[1..], id)
  }

  /** `reduce((total, item) => total + f(item), 0)`, folding from the left. */
  function SumBy(s: seq<CartItem>, f: CartItem -> int): int
  {
    if s == [] then 0 else SumBy(s[..|s| - 1], f) + f(s[|s| - 1])
  }

  function QuantityOf(item: CartItem): int
  {
    item.quantity
  }

  /** cartCount: the sum of the quantities. */
  function Count(s: seq<CartItem>): int
  {
    SumBy(s, QuantityOf)
  }

  // ---------------------------------------------------------------------------
  // Sums

  lemma {:induction false} SumByConcat(a: seq<CartItem>, b: seq<CartItem>, f: CartItem -> int)
    ensures SumBy(a + b, f) == SumBy(a, f) + SumBy(b, f)
    decreases |b|
  {
    if b == [] {
      assert a + b == a;
    } else {
      var b' := b[..|b| - 1];
      assert (a + b)[..|a + b| - 1] == a + b';
      SumByConcat(a, b', f);
    }
  }

  lemma SumBySingle(x: CartItem, f: CartItem -> int)
    ensures SumBy([x], f) == f(x)
  {
    assert [x][..0] == [];
  }

  /** Replacing one entry changes a sum by exactly that entry's difference. */
  lemma SumByUpdate(s: seq<CartItem>, k: nat, x: CartItem, f: CartItem -> int)
    requires k < |s|
    ensures SumBy(s[k := x], f) == SumBy(s, f) - f(s[k]) + f(x)
  {
    assert s == s[..k] + [s[k]] + s[k + 1..];
    assert s[k := x] == s[..k] + [x] + s[k + 1..];
    SumByConcat(s[..k] + [s[k]], s[k + 1..], f);
    SumByConcat(s[..k], [s[k]], f);
    SumByConcat(s[..k] + [x], s[k + 1..], f);
    SumByConcat(s[..k], [x], f);
    SumBySingle(s[k], f);
    SumBySingle(x, f);
  }

  /** Deleting one entry lowers a sum by exactly that entry's share. */
  lemma SumByDelete(s: seq<CartItem>, k: nat, f: CartItem -> int)
    requires k < |s|
    ensures SumBy(s[..k] + s[k + 1..], f) == SumBy(s, f) - f(s[k])
  {
    var front, back := s[..k], s[k + 1..];
    var upTo := s[..k + 1];
    assert upTo + back == s;
    assert front + [s[k]] == upTo;
    SumByConcat(upTo, back, f);
    SumByConcat(front, [s[k]], f);
    SumBySingle(s[k], f);
    SumByConcat(front, back, f);
  }



  /** With positive quantities, cartCount is at least the number of entries, and positive for a non-empty cart. */
  lemma {:induction false} CountBounds(s: seq<CartItem>)
    requires AllPositive(s)
    ensures Count(s) >= |s|
    ensures s != [] ==> Count(s) > 0
  {
    if s != [] {
      CountBounds(s[..|s| - 1]);
    }
  }

  /** cartCount of an empty cart is 0. */
  lemma CountEmpty()
    ensures Count([]) == 0
  {
  }

  /** With every quantity 1, cartCount is the number of entries. */
  lemma {:induction false} CountOfSingles(s: seq<CartItem>)
    requires forall i :: 0 <= i < |s| ==> s[i].quantity == 1
    ensures Count(s) == |s|
  {
    if s != [] {
      CountOfSingles(s[..|s| - 1]);
    }
  }

  // ---------------------------------------------------------------------------
  // addToCart

  /** Adding a product already in the cart bumps that one entry and changes nothing else. */
  lemma AddExisting(s: seq<CartItem>, p: Product, k: nat)
    requires UniqueIds(s) && k < |s| && s[k].product.id == p.id
    ensures AddProduct(s, p) == s[k := s[k].(quantity := s[k].quantity + 1)]
  {
    assert HasProduct(s, p.id);
    var r := AddProduct(s, p);
    forall i | 0 <= i < |s|
      ensures r[i] == s[k := s[k].(quantity := s[k].quantity + 1)][i]
    {
      if i != k {
        assert s[i].product.id != p.id;
      }
    }
  }

  /** Adding a product not in the cart appends it with quantity 1 after the old entries. */
  lemma AddNew(s: seq<CartItem>, p: Product)
    requires !HasProduct(s, p.id)
    ensures |AddProduct(s, p)| == |s| + 1
    ensures AddProduct(s, p)[..|s|] == s
    ensures AddProduct(s, p)[|s|] == CartItem(p, 1)
  {
    assert AddProduct(s, p) == s + [CartItem(p, 1)];
  }

  /** addToCart keeps every quantity at least 1, whether or not ids are unique. */
  lemma AddKeepsPositive(s: seq<CartItem>, p: Product)
    requires AllPositive(s)
    ensures AllPositive(AddProduct(s, p))
  {
    match Find(s, p.id)
    case Some(k) =>
      var r := AddProduct(s, p);
      forall i | 0 <= i < |r|
        ensures r[i].quantity >= 1
      {
        assert r[i].quantity >= s[i].quantity;
      }
    case None =>
      assert AddProduct(s, p) == s + [CartItem(p, 1)];
  }

  lemma AddPreservesWellFormed(s: seq<CartItem>, p: Product)
    requires WellFormed(s)
    ensures WellFormed(AddProduct(s, p))
  {
    match Find(s, p.id)
    case Some(k) =>
      AddExisting(s, p, k);
    case None =>
      assert AddProduct(s, p) == s + [CartItem(p, 1)];
  }

  /** Every addToCart raises cartCount by exactly one. */
  lemma CountAdd(s: seq<CartItem>, p: Product)
    requires UniqueIds(s)
    ensures Count(AddProduct(s, p)) == Count(s) + 1
  {
    match Find(s, p.id)
    case Some(k) =>
      AddExisting(s, p, k);
      SumByUpdate(s, k, s[k].(quantity := s[k].quantity + 1), QuantityOf);
    case None =>
      SumByConcat(s, [CartItem(p, 1)], QuantityOf);
      SumBySingle(CartItem(p, 1), QuantityOf);
  }

  /** Adding the same product twice to an empty cart gives one entry of quantity 2. */
  lemma AddTwiceToEmpty(p: Product)
    ensures AddProduct(AddProduct([], p), p) == [CartItem(p, 2)]
  {
    var once := [CartItem(p, 1)];
    assert Find([], p.id) == None;
    assert AddProduct([], p) == once;
    AddExisting(once, p, 0);
    assert once[0 := CartItem(p, 2)] == [CartItem(p, 2)];
  }


  // ---------------------------------------------------------------------------
  // updateQuantity

  /** A quantity below 1 leaves the cart exactly as it was. */
  lemma UpdateBelowOne(s: seq<CartItem>, id: int, quantity: int)
    requires quantity < 1
    ensures UpdateQuantityOf(s, id, quantity) == s
  {
  }

  /** A valid quantity replaces that one entry's quantity and changes nothing else. */
  lemma UpdateExisting(s: seq<CartItem>, id: int, quantity: int, k: nat)
    requires UniqueIds(s) && k < |s| && s[k].product.id == id && quantity >= 1
    ensures UpdateQuantityOf(s, id, quantity) == s[k := s[k].(quantity := quantity)]
  {
    var r := UpdateQuantityOf(s, id, quantity);
    forall i | 0 <= i < |s|
      ensures r[i] == s[k := s[k].(quantity := quantity)][i]
    {
      if i != k {
        assert s[i].product.id != id;
      }
    }
  }

  /** An id not in the cart leaves it unchanged: no entry is created. */
  lemma UpdateAbsent(s: seq<CartItem>, id: int, quantity: int)
    requires !HasProduct(s, id)
    ensures UpdateQuantityOf(s, id, quantity) == s
  {
    var r := UpdateQuantityOf(s, id, quantity);
    forall i | 0 <= i < |s|
      ensures r[i] == s[i]
    {
      assert s[i].product.id != id;
    }
  }

  /** updateQuantity keeps every quantity at least 1, whether or not ids are unique. */
  lemma UpdateKeepsPositive(s: seq<CartItem>, id: int, quantity: int)
    requires AllPositive(s)
    ensures AllPositive(UpdateQuantityOf(s, id, quantity))
  {
    var r := UpdateQuantityOf(s, id, quantity);
    forall i | 0 <= i < |r|
      ensures r[i].quantity >= 1
    {
    }
  }

  lemma UpdatePreservesWellFormed(s: seq<CartItem>, id: int, quantity: int)
    requires WellFormed(s)
    ensures WellFormed(UpdateQuantityOf(s, id, quantity))
  {
    var r := UpdateQuantityOf(s, id, quantity);
    forall i | 0 <= i < |r|
      ensures r[i].quantity >= 1
    {
    }
  }

  /** A valid update moves cartCount by the difference between the new and the old quantity. */
  lemma CountUpdate(s: seq<CartItem>, id: int, quantity: int, k: nat)
    requires UniqueIds(s) && k < |s| && s[k].product.id == id && quantity >= 1
    ensures Count(UpdateQuantityOf(s, id, quantity)) == Count(s) - s[k].quantity + quantity
  {
    UpdateExisting(s, id, quantity, k);
    SumByUpdate(s, k, s[k].(quantity := quantity), QuantityOf);
  }

  // ---------------------------------------------------------------------------
  // removeFromCart

  /** The filter works piecewise: removal keeps the relative order of what stays. */
  lemma {:induction false} RemoveConcat(a: seq<CartItem>, b: seq<CartItem>, id: int)
    ensures RemoveProduct(a + b, id) == RemoveProduct(a, id) + RemoveProduct(b, id)
  {
    if a == [] {
      assert a + b == b;
    } else {
      assert (a + b)[1..] == a[1..] + b;
      RemoveConcat(a[1..], b, id);
    }
  }

  /** Removing an id that is not in the cart leaves it unchanged, contents and order. */
  lemma {:induction false} RemoveAbsent(s: seq<CartItem>, id: int)
    requires !HasProduct(s, id)
    ensures RemoveProduct(s, id) == s
  {
    if s != [] {
      assert !HasProduct(s[1..], id) by {
        forall i | 0 <= i < |s[1..]|
          ensures s[1..][i].product.id != id
        {
          assert s[1..][i] == s[i + 1];
        }
      }
      RemoveAbsent(s[1..], id);
    }
  }

  /** Dropping the first entry keeps ids unique, and the first id does not recur. */
  lemma UniqueTail(s: seq<CartItem>)
    requires UniqueIds(s) && s != []
    ensures UniqueIds(s[1..])
    ensures !HasProduct(s[1..], s[0].product.id)
  {
    var t := s[1..];
    forall i, j | 0 <= i < |t| && 0 <= j < |t| && i != j
      ensures t[i].product.id != t[j].product.id
    {
      assert t[i] == s[i + 1] && t[j] == s[j + 1];
    }
    forall i | 0 <= i < |t|
      ensures t[i].product.id != s[0].product.id
    {
      assert t[i] == s[i + 1];
    }
  }

  /** With unique ids, removing the id of entry k deletes exactly that entry. */
  lemma {:induction false} RemoveAt(s: seq<CartItem>, k: nat)
    requires UniqueIds(s) && k < |s|
    ensures RemoveProduct(s, s[k].product.id) == s[..k] + s[k + 1..]
  {
    UniqueTail(s);
    if k == 0 {
      RemoveAbsent(s[1..], s[0].product.id);
    } else {
      assert s[k] == s[1..][k - 1];
      RemoveAt(s[1..], k - 1);
      assert s[..k] + s[k + 1..] == [s[0]] + (s[1..][..k - 1] + s[1..][k..]);
    }
  }

  /** removeFromCart keeps every quantity at least 1, whether or not ids are unique. */
  lemma RemoveKeepsPositive(s: seq<CartItem>, id: int)
    requires AllPositive(s)
    ensures AllPositive(RemoveProduct(s, id))
  {
    var r := RemoveProduct(s, id);
    forall i | 0 <= i < |r|
      ensures r[i].quantity >= 1
    {
      assert r[i] in s;
    }
  }

  lemma {:induction false} RemovePreservesWellFormed(s: seq<CartItem>, id: int)
    requires WellFormed(s)
    ensures WellFormed(RemoveProduct(s, id))
  {
    if s != [] {
      var t := s[1..];
      UniqueTail(s);
      assert AllPositive(t) by {
        forall i | 0 <= i < |t|
          ensures t[i].quantity >= 1
        {
          assert t[i] == s[i + 1];
        }
      }
      RemovePreservesWellFormed(t, id);
      var rest := RemoveProduct(t, id);
      if s[0].product.id != id {
        assert RemoveProduct(s, id) == [s[0]] + rest;
        forall x | x in rest
          ensures x.product.id != s[0].product.id
        {
          var j :| 0 <= j < |t| && t[j] == x;
        }
      } else {
        assert RemoveProduct(s, id) == rest;
      }
    }
  }

  /** Removing an entry lowers cartCount by exactly that entry's quantity. */
  lemma CountRemove(s: seq<CartItem>, k: nat)
    requires UniqueIds(s) && k < |s|
    ensures Count(RemoveProduct(s, s[k].product.id)) == Count(s) - s[k].quantity
  {
    RemoveAt(s, k);
    SumByDelete(s, k, QuantityOf);
  }

  // ---------------------------------------------------------------------------
  // The store

  /**
   * `CartProvider`: the in-memory cart plus the storage it is persisted to.
   * Every change is followed by writing the whole cart under CartKey.
   */
  class CartProvider {
    var cart: seq<CartItem>
    const storage: LocalStorage<seq<CartItem>>

    /** Start-up: the stored cart, or empty when none is stored; then persisted. */
    constructor (storage: LocalStorage<seq<CartItem>>)
      modifies storage
      ensures this.storage == storage
      ensures cart == if CartKey in old(storage.items) then old(storage.items)[CartKey] else []
      ensures storage.items == old(storage.items)[CartKey := cart]
    {
      this.storage := storage;
      var saved := storage.GetItem(CartKey);
      cart := if saved.Some? then saved.value else [];
      new;
      storage.SetItem(CartKey, cart);
    }

    /** The stored snapshot equals the in-memory cart. */
    predicate Persisted()
      reads this, storage
    {
      CartKey in storage.items && storage.items[CartKey] == cart
    }

    /** cartCount, recomputed from the cart on every read. */
    function CartCount(): int
      reads this
    {
      Count(cart)
    }

    method AddToCart(p: Product)
      modifies this, storage
      ensures cart == AddProduct(old(cart), p)
      ensures storage.items == old(storage.items)[CartKey := cart]
      ensures Persisted()
      ensures old(AllPositive(cart)) ==> AllPositive(cart)
      ensures old(WellFormed(cart)) ==> WellFormed(cart) && CartCount() == old(CartCount()) + 1
    {
      if AllPositive(cart) {
        AddKeepsPositive(cart, p);
      }
      if WellFormed(cart) {
        AddPreservesWellFormed(cart, p);
        CountAdd(cart, p);
      }
      cart := AddProduct(cart, p);
      storage.SetItem(CartKey, cart);
    }

    method UpdateQuantity(id: int, quantity: int)
      modifies this, storage
      ensures cart == UpdateQuantityOf(old(cart), id, quantity)
      ensures quantity < 1 ==> cart == old(cart) && storage.items == old(storage.items)
      ensures quantity >= 1 ==> storage.items == old(storage.items)[CartKey := cart] && Persisted()
      ensures old(AllPositive(cart)) ==> AllPositive(cart)
      ensures old(WellFormed(cart)) ==> WellFormed(cart)
    {
      if quantity < 1 {
        return;
      }
      if AllPositive(cart) {
        UpdateKeepsPositive(cart, id, quantity);
      }
      if WellFormed(cart) {
        UpdatePreservesWellFormed(cart, id, quantity);
      }
      cart := UpdateQuantityOf(cart, id, quantity);
      storage.SetItem(CartKey, cart);
    }

    method RemoveFromCart(id: int)
      modifies this, storage
      ensures cart == RemoveProduct(old(cart), id)
      ensures storage.items == old(storage.items)[CartKey := cart]
      ensures Persisted()
      ensures old(AllPositive(cart)) ==> AllPositive(cart)
      ensures old(WellFormed(cart)) ==> WellFormed(cart)
    {
      if AllPositive(cart) {
        RemoveKeepsPositive(cart, id);
      }
      if WellFormed(cart) {
        RemovePreservesWellFormed(cart, id);
      }
      cart := RemoveProduct(cart, id);
      storage.SetItem(CartKey, cart);
    }
  }
}
