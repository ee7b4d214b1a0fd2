/**
 * The checkout page: the order total over the cart, the shipping form, and
 * placing an order, which validates the form, shows an alert and, on success,
 * drops the persisted cart snapshot while leaving the in-memory cart as it is.
 */
module CheckoutPage {
  import opened Products
  import opened CartContext

  datatype Form = Form(name: string, address: string, paymentMethod: string)

  /** The form controls that raise change events: the name input, the address
      text area and the payment-method select. */
  datatype Field = Name | Address | PaymentMethod

  const InitialForm: Form := Form("", "", "Credit Card")
  const RequiredFieldsMessage: string := "Please fill in all required fields."
  const OrderPlacedMessage: string := "Order placed successfully! Thank you for shopping with us."

  // ---------------------------------------------------------------------------
  // totalPrice

  function LineTotal(item: CartItem): int
  {
    item.product.price * item.quantity
  }

  /** A proof step: the distributivity the total lemmas need. */
  lemma LineTotalChange(item: CartItem, quantity: int)
    ensures LineTotal(item.(quantity := quantity)) == LineTotal(item) + item.product.price * (quantity - item.quantity)
  {
    assert item.product.price * quantity
      == item.product.price * item.quantity + item.product.price * (quantity - item.quantity);
  }

  /** totalPrice: the sum of price times quantity over the cart. */
  function Total(s: seq<CartItem>): int
  {
    SumBy(s, LineTotal)
  }

  lemma TotalEmpty()
    ensures Total([]) == 0
  {
  }

  /** With no negative price and every quantity at least 1, the total is not negative. */
  lemma {:induction false} TotalNonNegative(s: seq<CartItem>)
    requires AllPositive(s)
    requires forall i :: 0 <= i < |s| ==> s[i].product.price >= 0
    ensures Total(s) >= 0
  {
    if s != [] {
      TotalNonNegative(s[..|s| - 1]);
    }
  }

  /**
   * addToCart of a product already in the cart raises the total by the stored
   * entry's own unit price (the merged entry keeps its original product fields).
   */
  lemma TotalAddExisting(s: seq<CartItem>, p: Product, k: nat)
    requires UniqueIds(s) && k < |s| && s[k].product.id == p.id
    ensures Total(AddProduct(s, p)) == Total(s) + s[k].product.price
  {
    var item := s[k].(quantity := s[k].quantity + 1);
    AddExisting(s, p, k);
    SumByUpdate(s, k, item, LineTotal);
    LineTotalChange(s[k], s[k].quantity + 1);
  }

  /** addToCart of a new product raises the total by that product's price. */
  lemma TotalAddNew(s: seq<CartItem>, p: Product)
    requires !HasProduct(s, p.id)
    ensures Total(AddProduct(s, p)) == Total(s) + p.price
  {
    assert AddProduct(s, p) == s + [CartItem(p, 1)];
    SumByConcat(s, [CartItem(p, 1)], LineTotal);
    SumBySingle(CartItem(p, 1), LineTotal);
  }

  /** A valid quantity change moves the total by the entry's price times the change. */
  lemma TotalUpdate(s: seq<CartItem>, id: int, quantity: int, k: nat)
    requires UniqueIds(s) && k < |s| && s[k].product.id == id && quantity >= 1
    ensures Total(UpdateQuantityOf(s, id, quantity)) == Total(s) + s[k].product.price * (quantity - s[k].quantity)
  {
    UpdateExisting(s, id, quantity, k);
    SumByUpdate(s, k, s[k].(quantity := quantity), LineTotal);
    LineTotalChange(s[k], quantity);
  }

  /** Removing an entry lowers the total by exactly that entry's line total. */
  lemma TotalRemove(s: seq<CartItem>, k: nat)
    requires UniqueIds(s) && k < |s|
    ensures Total(RemoveProduct(s, s[k].product.id)) == Total(s) - s[k].product.price * s[k].quantity
  {
    RemoveAt(s, k);
    SumByDelete(s, k, LineTotal);
  }

  // ---------------------------------------------------------------------------
  // The form

  function FieldValue(f: Form, field: Field): string
  {
    match field
    case Name => f.name
    case Address => f.address
    case PaymentMethod => f.paymentMethod
  }

  /** handleInputChange's update `{ ...prev, [name]: value }`. */
  function WithField(f: Form, field: Field, value: string): (r: Form)
    ensures FieldValue(r, field) == value
    ensures forall g :: g != field ==> FieldValue(r, g) == FieldValue(f, g)
  {
    match field
    case Name => f.(name := value)
    case Address => f.(address := value)
    case PaymentMethod => f.(paymentMethod := value)
  }

  /** The check handlePlaceOrder makes: both name and address are non-empty. */
  predicate Complete(f: Form)
  {
    f.name != "" && f.address != ""
  }

  // ---------------------------------------------------------------------------
  // The page

  class Checkout {
    var form: Form
    var showAlert: bool
    var alertMessage: string
    /** The cart store the page reads through `useCart`. */
    const provider: CartProvider

    constructor (provider: CartProvider)
      ensures this.provider == provider
      ensures form == InitialForm && !showAlert && alertMessage == ""
    {
      this.provider := provider;
      form := InitialForm;
      showAlert := false;
      alertMessage := "";
    }

    function TotalPrice(): int
      reads this, provider
    {
      Total(provider.cart)
    }

    /** The form is rendered, and so raises change events, only for a non-empty cart. */
    method HandleInputChange(field: Field, value: string)
      requires provider.cart != []
      modifies this
      ensures form == WithField(old(form), field, value)
      ensures showAlert == old(showAlert) && alertMessage == old(alertMessage)
    {
      form := WithField(form, field, value);
    }

    /**
     * An incomplete form gets the required-fields alert and nothing else
     * happens; a complete one gets the success alert and the persisted cart is
     * removed. The in-memory cart is never touched. The Place Order button is
     * rendered only for a non-empty cart.
     */
    method HandlePlaceOrder()
      requires provider.cart != []
      modifies this, provider.storage
      ensures form == old(form) && showAlert
      ensures alertMessage == if Complete(form) then OrderPlacedMessage else RequiredFieldsMessage
      ensures !Complete(form) ==> provider.storage.items == old(provider.storage.items)
      ensures Complete(form) ==> provider.storage.items == old(provider.storage.items) - {CartKey}
      ensures provider.cart == old(provider.cart)
    {
      if form.name == "" || form.address == "" {
        alertMessage := RequiredFieldsMessage;
        showAlert := true;
        return;
      }
      alertMessage := OrderPlacedMessage;
      showAlert := true;
      provider.storage.RemoveItem(CartKey);
    }

    /** The alert's close handler. */
    method CloseAlert()
      modifies this
      ensures !showAlert
      ensures form == old(form) && alertMessage == old(alertMessage)
    {
      showAlert := false;
    }
  }
}
