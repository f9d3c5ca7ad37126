/**
 * The checkout page's state and its submit handler (js/payment.js): the
 * selections the page keeps in module-level variables, the browser store
 * that holds the cart and the order history, the payment step and
 * `processCheckout`.
 *
 * Page rendering, alerts and redirects are not modelled. The e-wallet
 * simulation's timers are reduced to how it ends (confirmed or cancelled by
 * the user), and each `Date.now()` or ISO time reading is an input.
 */
module Checkout {
  import opened Wrappers
  import opened Pricing
  import opened Form

  /** The `buyer` object: the seven required inputs, trimmed. */
  datatype Buyer = Buyer(
    firstName: string, lastName: string, email: string, phone: string,
    address: string, city: string, postalCode: string)

  /** `paymentResult`; `pending` is false when the source leaves it out. */
  datatype PaymentResult = PaymentResult(
    success: bool, provider: Option<string>, transactionId: Option<string>, pending: bool)

  /** The `status` string of an order's payment. */
  datatype Status = Pending | Paid | Failed

  /** The `payment` part of an order. */
  datatype PaymentRecord = PaymentRecord(
    paymentMethod: string, provider: string, paymentFee: int, amountPaid: int,
    transactionId: Option<string>, status: Status)

  /** `orderData`, the record stored in the order history. */
  datatype Order = Order(
    orderId: string, customer: Buyer, items: seq<LineItem>, shipping: Shipping,
    payment: PaymentRecord, subtotal: int, tax: int, total: int, createdAt: string)

  /** How the e-wallet simulation settles: its timer fires, or the user cancels first. */
  datatype WalletOutcome = Confirmed | CancelledByUser

  /**
   * The clock readings of one checkout: `Date.now()` inside the payment
   * step, `Date.now()` for the order id, and the ISO time of `createdAt`,
   * each as the text it turns into.
   */
  datatype Clock = Clock(paymentMillis: string, orderMillis: string, isoTime: string)

  /** A provider button; `dataProvider` is its `data-provider` attribute, absent or not. */
  datatype ProviderButton = ProviderButton(dataProvider: Option<string>)

  /** The error message of a cancelled e-wallet payment. */
  const CancelMessage: string := "Pembayaran dibatalkan oleh pengguna."

  /** The payment step of `processCheckout`: a result, or one of its two early exits. */
  datatype PaymentStep = Accepted(result: PaymentResult) | NoProvider | Rejected(message: string)

  /** How `processCheckout` ends. */
  datatype CheckoutOutcome =
    | InvalidForm
    | EmptyCart
    | MissingProvider
    | PaymentRejected(message: string)
    | Placed(order: Order)

  /** `paymentResult.success ? (paymentResult.pending ? 'pending' : 'paid') : 'failed'`. */
  function StatusOf(r: PaymentResult): Status
  {
    if r.success then (if r.pending then Pending else Paid) else Failed
  }

  /** The payment method is one the page pays for without the e-wallet simulation. */
  predicate IsOffline(payment: string)
  {
    payment == "bank-transfer" || payment == "cod"
  }

  /**
   * The `try` block of `processCheckout`: e-wallet goes through the
   * simulation, bank transfer and cash on delivery succeed as pending, and
   * any other method leaves the initial unsuccessful result in place.
   */
  function Pay(payment: string, provider: Option<string>, wallet: WalletOutcome, millis: string): (p: PaymentStep)
    ensures p.NoProvider? <==> payment == "e-wallet" && !HasProvider(provider)
    ensures p.Rejected? <==> payment == "e-wallet" && HasProvider(provider) && wallet == CancelledByUser
    ensures p.Rejected? ==> p.message == CancelMessage
    ensures p.Accepted? && payment == "e-wallet" ==>
      StatusOf(p.result) == Paid && p.result.provider == provider
      && p.result.transactionId == Some("TX-" + millis)
    ensures p.Accepted? && IsOffline(payment) ==>
      StatusOf(p.result) == Pending && p.result.provider == Some(payment)
    ensures p.Accepted? ==> (StatusOf(p.result) == Failed <==> payment != "e-wallet" && !IsOffline(payment))
  {
    if payment == "e-wallet" then
      if !HasProvider(provider) then NoProvider
      else if wallet == CancelledByUser then Rejected(CancelMessage)
      else Accepted(PaymentResult(true, provider, Some("TX-" + millis), false))
    else if payment == "bank-transfer" then
      Accepted(PaymentResult(true, Some("bank-transfer"), Some("BT-" + millis), true))
    else if payment == "cod" then
      Accepted(PaymentResult(true, Some("cod"), Some("COD-" + millis), true))
    else
      Accepted(PaymentResult(false, None, None, false))
  }

  /** `paymentResult.provider || selectedPayment`. */
  function ProviderLabel(r: PaymentResult, payment: string): string
  {
    if HasProvider(r.provider) then r.provider.value else payment
  }

  /**
   * `document.getElementById(id).value.trim()`. Validation has already
   * established that the input exists; the empty default is never used.
   */
  function FieldValue(form: map<string, string>, id: string): string
  {
    if id in form then Trim(form[id]) else ""
  }

  /** The buyer `processCheckout` reads off the form. */
  function BuyerFrom(form: map<string, string>): Buyer
  {
    Buyer(FieldValue(form, "firstName"), FieldValue(form, "lastName"), FieldValue(form, "email"),
          FieldValue(form, "phone"), FieldValue(form, "address"), FieldValue(form, "city"),
          FieldValue(form, "postalCode"))
  }

  /**
   * The order a successful checkout records: the trimmed buyer, the cart as
   * it was, the current selections, the totals and the payment status.
   */
  ghost predicate RecordsCheckout(
    o: Order, cart: seq<LineItem>, shipping: Shipping, payment: string, provider: Option<string>,
    form: map<string, string>, clock: Clock)
  {
    var t := CalculateTotals(cart, shipping, payment);
    && o.orderId == "ORD-" + clock.orderMillis
    && o.customer == BuyerFrom(form)
    && o.items == cart
    && o.shipping == shipping
    && o.subtotal == t.subtotal && o.tax == t.tax && o.total == t.grandTotal
    && o.payment.paymentMethod == payment
    && o.payment.paymentFee == t.paymentFee && o.payment.amountPaid == t.grandTotal
    && (if payment == "e-wallet" then provider == Some(o.payment.provider) else o.payment.provider == payment)
    && o.payment.transactionId == (
         if payment == "e-wallet" then Some("TX-" + clock.paymentMillis)
         else if payment == "bank-transfer" then Some("BT-" + clock.paymentMillis)
         else if payment == "cod" then Some("COD-" + clock.paymentMillis)
         else None)
    && o.payment.status == (if payment == "e-wallet" then Paid else if IsOffline(payment) then Pending else Failed)
    && o.createdAt == clock.isoTime
  }

  /**
   * The browser store's three keys: `cart`, `orders` (newest first) and
   * `lastOrder`.
   */
  class LocalStore {
    var cart: seq<LineItem>
    var orders: seq<Order>
    var lastOrder: Option<Order>

    /** The store as the page finds it when it loads. */
    constructor (cart: seq<LineItem>, orders: seq<Order>, lastOrder: Option<Order>)
      ensures this.cart == cart && this.orders == orders && this.lastOrder == lastOrder
    {
      this.cart := cart;
      this.orders := orders;
      this.lastOrder := lastOrder;
    }

    /** `saveOrderRecord`: the order goes to the front of the history and becomes the last order. */
    method SaveOrderRecord(order: Order)
      modifies this
      ensures orders == [order] + old(orders)
      ensures |orders| == |old(orders)| + 1 && orders[0] == order
      ensures lastOrder == Some(order)
      ensures cart == old(cart)
    {
      orders := [order] + orders;
      lastOrder := Some(order);
    }

    /** `localStorage.setItem('cart', '[]')`. */
    method ClearCart()
      modifies this
      ensures cart == []
      ensures orders == old(orders) && lastOrder == old(lastOrder)
    {
      cart := [];
    }
  }

  /** The checkout page's selections. */
  class CheckoutPage {
    var selectedShipping: Shipping
    var selectedPayment: string
    var selectedProvider: Option<string>

    /**
     * Only e-wallet carries a provider. The initial state and every
     * selection of a shipping or payment method keep this; see
     * SelectProvider for the one handler that does not.
     */
    predicate ProviderOnlyForWallet()
      reads this
    {
      selectedPayment != "e-wallet" ==> selectedProvider == None
    }

    /** The initial selections: regular shipping at 15000, bank transfer, no provider. */
    constructor ()
      ensures selectedShipping == Shipping("regular", Some(15000))
      ensures selectedPayment == "bank-transfer"
      ensures selectedProvider == None
      ensures ProviderOnlyForWallet()
    {
      selectedShipping := Shipping("regular", Some(15000));
      selectedPayment := "bank-transfer";
      selectedProvider := None;
    }

    /** `selectShipping`, in either calling form: only the shipping selection changes. */
    method SelectShipping(kind: string, cost: Option<int>)
      modifies this
      ensures selectedShipping == Shipping(kind, cost)
      ensures selectedPayment == old(selectedPayment) && selectedProvider == old(selectedProvider)
      ensures old(ProviderOnlyForWallet()) ==> ProviderOnlyForWallet()
    {
      selectedShipping := Shipping(kind, cost);
    }

    /**
     * `selectProvider`: the provider becomes the button's `data-provider`,
     * whatever the payment method. The source does not check that e-wallet
     * is selected; the page only shows the buttons when it is.
     */
    method SelectProvider(button: ProviderButton)
      modifies this
      ensures selectedProvider == button.dataProvider
      ensures selectedShipping == old(selectedShipping) && selectedPayment == old(selectedPayment)
    {
      selectedProvider := button.dataProvider;
    }

    /**
     * `selectPayment`: any method other than e-wallet drops the provider;
     * e-wallet keeps a chosen provider, and otherwise picks the first
     * provider button on the page if there is one.
     */
    method SelectPayment(payment: string, firstButton: Option<ProviderButton>)
      modifies this
      ensures selectedPayment == payment
      ensures selectedShipping == old(selectedShipping)
      ensures payment != "e-wallet" ==> selectedProvider == None
      ensures payment == "e-wallet" && HasProvider(old(selectedProvider)) ==>
        selectedProvider == old(selectedProvider)
      ensures payment == "e-wallet" && !HasProvider(old(selectedProvider)) ==>
        selectedProvider == (if firstButton.Some? then firstButton.value.dataProvider else old(selectedProvider))
      ensures ProviderOnlyForWallet()
    {
      selectedPayment := payment;
      if selectedPayment == "e-wallet" {
        if !HasProvider(selectedProvider) {
          if firstButton.Some? {
            SelectProvider(firstButton.value);
          }
        }
      } else {
        selectedProvider := None;
      }
    }

    /**
     * `processCheckout`: validate the form, refuse an empty cart, pay, then
     * record the order and clear the cart. Every early exit leaves the
     * store as it was; only a placed order changes it.
     */
    method ProcessCheckout(store: LocalStore, form: map<string, string>, wallet: WalletOutcome, clock: Clock)
      returns (outcome: CheckoutOutcome)
      modifies store
      ensures outcome == InvalidForm <==> !FormValid(form, selectedPayment, selectedProvider)
      ensures outcome == EmptyCart <==> FormValid(form, selectedPayment, selectedProvider) && old(store.cart) == []
      ensures outcome.PaymentRejected? <==>
        FormValid(form, selectedPayment, selectedProvider) && old(store.cart) != []
        && selectedPayment == "e-wallet" && wallet == CancelledByUser
      ensures outcome.PaymentRejected? ==> outcome.message == CancelMessage
      ensures outcome != MissingProvider
      ensures !outcome.Placed? ==>
        store.cart == old(store.cart) && store.orders == old(store.orders) && store.lastOrder == old(store.lastOrder)
      ensures outcome.Placed? ==>
        store.orders == [outcome.order] + old(store.orders) && store.lastOrder == Some(outcome.order) && store.cart == []
      ensures outcome.Placed? ==>
        RecordsCheckout(outcome.order, old(store.cart), selectedShipping, selectedPayment, selectedProvider, form, clock)
    {
      var valid := ValidateForm(form, selectedPayment, selectedProvider);
      if !valid {
        return InvalidForm;
      }
      var cart := store.cart;
      if cart == [] {
        return EmptyCart;
      }
      var buyer := BuyerFrom(form);
      var totals := CalculateTotals(cart, selectedShipping, selectedPayment);
      var step := Pay(selectedPayment, selectedProvider, wallet, clock.paymentMillis);
      if !step.Accepted? {
        return if step.NoProvider? then MissingProvider else PaymentRejected(step.message);
      }
      var result := step.result;
      var order := Order(
        "ORD-" + clock.orderMillis, buyer, cart, selectedShipping,
        PaymentRecord(selectedPayment, ProviderLabel(result, selectedPayment), totals.paymentFee,
                      totals.grandTotal, result.transactionId, StatusOf(result)),
        totals.subtotal, totals.tax, totals.grandTotal, clock.isoTime);
      assert RecordsCheckout(order, cart, selectedShipping, selectedPayment, selectedProvider, form, clock);
      store.SaveOrderRecord(order);
      store.ClearCart();
      return Placed(order);
    }
  }
}
