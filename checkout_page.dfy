/**
 * The checkout page: the totals it shows, the address it sends, which of its
 * three views it renders, and what it does with the order route's answer.
 */
module CheckoutPage {
  import opened Wrappers
  import opened Domain
  import Cart
  import Orders

  /** `shippingTotal`: each line's shipping cost once, whatever its quantity. */
  function ShippingTotal(cart: seq<CartLine>): int {
    if cart == [] then 0 else cart[0].shippingCost + ShippingTotal(cart[1..])
  }

  /** `grandTotal = totalPrice + shippingTotal`. */
  function GrandTotal(cart: seq<CartLine>): int {
    Cart.TotalPrice(cart) + ShippingTotal(cart)
  }

  /** Changing line quantities leaves the shipping total as it was. */
  lemma {:induction false} ShippingIgnoresQuantity(a: seq<CartLine>, b: seq<CartLine>)
    requires |a| == |b|
    requires forall i :: 0 <= i < |a| ==> a[i].shippingCost == b[i].shippingCost
    ensures ShippingTotal(a) == ShippingTotal(b)
  {
    if a != [] {
      ShippingIgnoresQuantity(a[1..], b[1..]);
    }
  }

  /** Cart lines and validated lines agreeing on price, quantity and shipping have the same subtotal and shipping sum. */
  lemma {:induction false} TotalsAgreeLineByLine(cart: seq<CartLine>, vs: seq<Orders.ValidatedItem>)
    requires |cart| == |vs|
    requires forall i :: 0 <= i < |cart| ==>
      cart[i].price == vs[i].price && cart[i].quantity == vs[i].quantity && cart[i].shippingCost == vs[i].shippingCost
    ensures Cart.TotalPrice(cart) == Orders.Subtotal(vs)
    ensures ShippingTotal(cart) == Orders.ShippingSum(vs)
  {
    if cart != [] {
      TotalsAgreeLineByLine(cart[1..], vs[1..]);
    }
  }

  /**
   * When every cart line carries its product's stored price and shipping
   * cost, the total the page shows is the total the order route records.
   */
  lemma GrandTotalMatchesServer(products: map<ProductId, Product>, bids: seq<Bid>, caller: UserId, now: int,
                                cart: seq<CartLine>)
    requires Orders.ValidateCart(products, bids, caller, now, cart).Success?
    requires forall i :: 0 <= i < |cart| && cart[i].id in products ==>
      cart[i].price == products[cart[i].id].price && cart[i].shippingCost == products[cart[i].id].shippingCost
    ensures GrandTotal(cart) == Orders.OrderTotal(Orders.ValidateCart(products, bids, caller, now, cart).value)
  {
    var vs := Orders.ValidateCart(products, bids, caller, now, cart).value;
    Orders.ValidatedLinesUseStoredPrice(products, bids, caller, now, cart);
    TotalsAgreeLineByLine(cart, vs);
    Orders.OrderTotalSplits(vs);
  }

  /** The shipping form's fields. */
  datatype ShippingForm = ShippingForm(name: string, address: string, city: string, pincode: string, phone: string,
                                       paymentMethod: string)

  /** The form as the page first renders it. */
  const EmptyForm: ShippingForm := ShippingForm("", "", "", "", "", "UPI")

  /** `fullAddress`: `name, address, city - pincode. Phone: phone`. */
  function FullAddress(f: ShippingForm): (r: string)
    ensures |r| == |f.name| + |f.address| + |f.city| + |f.pincode| + |f.phone| + 16
    ensures r[..|f.name|] == f.name
    ensures r[|r| - |f.phone|..] == f.phone
    ensures r != ""
  {
    f.name + ", " + f.address + ", " + f.city + " - " + f.pincode + ". Phone: " + f.phone
  }

  /** Which of its three views the page renders. */
  datatype View = LoginPrompt | EmptyCartNotice | CheckoutForm

  function PageView(session: Option<Principal>, cart: seq<CartLine>): View {
    if session.None? then LoginPrompt
    else if cart == [] then EmptyCartNotice
    else CheckoutForm
  }

  /** The body posted to the order route. */
  datatype OrderRequest = OrderRequest(items: seq<CartLine>, address: string, paymentMethod: string)

  function RequestFor(cart: seq<CartLine>, f: ShippingForm): OrderRequest {
    OrderRequest(cart, FullAddress(f), f.paymentMethod)
  }

  /**
   * A request can leave the page only from the checkout form, and such a
   * request passes the route's session, empty-cart and address checks.
   */
  lemma FormRequestPassesPrechecks(session: Option<Principal>, cart: seq<CartLine>, f: ShippingForm)
    requires PageView(session, cart) == CheckoutForm
    ensures session.Some?
    ensures RequestFor(cart, f).items != []
    ensures RequestFor(cart, f).address != ""
  {
  }

  /** The order route's answer as the page sees it. */
  datatype Response = Created(orderId: int) | Rejected(message: string) | NetworkFailure

  /** `data.message || 'Checkout failed'`. */
  function FailureMessage(message: string): string {
    if message == "" then "Checkout failed" else message
  }

  datatype FormField = NameField | AddressField | CityField | PincodeField | PhoneField | PaymentField

  /** The page's state: the shared cart, the form, and the error and modal fields. */
  class CheckoutScreen {
    var cart: seq<CartLine>
    var form: ShippingForm
    var loading: bool
    var error: string
    var modalOpen: bool
    var modalMessage: string

    constructor (initialCart: seq<CartLine>)
      ensures cart == initialCart && form == EmptyForm
      ensures !loading && error == "" && !modalOpen && modalMessage == ""
    {
      cart := initialCart;
      form := EmptyForm;
      loading := false;
      error := "";
      modalOpen := false;
      modalMessage := "";
    }

    /** `handleChange`: one field takes the typed value. */
    method HandleChange(field: FormField, value: string)
      modifies this`form
      ensures form == match field
        case NameField => old(form).(name := value)
        case AddressField => old(form).(address := value)
        case CityField => old(form).(city := value)
        case PincodeField => old(form).(pincode := value)
        case PhoneField => old(form).(phone := value)
        case PaymentField => old(form).(paymentMethod := value)
    {
      match field
      case NameField => form := form.(name := value);
      case AddressField => form := form.(address := value);
      case CityField => form := form.(city := value);
      case PincodeField => form := form.(pincode := value);
      case PhoneField => form := form.(phone := value);
      case PaymentField => form := form.(paymentMethod := value);
    }

    /**
     * `handleSubmit`: posts the cart with the formatted address; `response`
     * is the route's answer.  The cart is emptied only on success, where the
     * page moves to the confirmation of the returned order id; otherwise the
     * cart stays and the failure is shown.
     */
    method HandleSubmit(session: Option<Principal>, response: Response)
      returns (sent: OrderRequest, confirmation: Option<int>)
      requires PageView(session, cart) == CheckoutForm
      modifies this`cart, this`loading, this`error, this`modalOpen, this`modalMessage
      ensures sent == RequestFor(old(cart), form)
      ensures !loading
      ensures response.Created? ==> cart == [] && confirmation == Some(response.orderId) && error == ""
      ensures response.Created? ==> modalOpen == old(modalOpen) && modalMessage == old(modalMessage)
      ensures !response.Created? ==> cart == old(cart) && confirmation.None? && modalOpen
      ensures response.Rejected? ==>
        error == FailureMessage(response.message) &&
        modalMessage == "Order Failed: " + FailureMessage(response.message)
      ensures response.NetworkFailure? ==>
        error == "Something went wrong. Please try again." && modalMessage == "Order Failed: Something went wrong."
    {
      loading := true;
      error := "";
      sent := RequestFor(cart, form);
      match response {
        case Created(orderId) =>
          cart := Cart.ClearCart();
          confirmation := Some(orderId);
        case Rejected(message) =>
          var msg := FailureMessage(message);
          error := msg;
          modalMessage := "Order Failed: " + msg;
          modalOpen := true;
          confirmation := None;
        case NetworkFailure =>
          error := "Something went wrong. Please try again.";
          modalMessage := "Order Failed: Something went wrong.";
          modalOpen := true;
          confirmation := None;
      }
      loading := false;
    }
  }
}
