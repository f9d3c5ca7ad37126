/**
 * The pricing engine of the checkout page (`calculateTotals` in js/payment.js):
 * subtotal, 11% tax, shipping, a percentage payment fee and the grand total,
 * all in integer rupiah.
 *
 * The source computes `subtotal * 0.11` and `preTotal * 1.5 / 100` in IEEE
 * doubles and rounds with `Math.round`. This model computes the same
 * quantities exactly, on rationals, and rounds them the way `Math.round`
 * does: to the nearest integer, halves towards positive infinity.
 */
module Pricing {
  import opened Wrappers

  /** One cart entry, as stored under the `cart` key of the browser store. */
  datatype LineItem = LineItem(id: string, name: string, price: int, qty: int, image: string)

  /** `selectedShipping`: its `cost` is absent when the page passed none. */
  datatype Shipping = Shipping(kind: string, cost: Option<int>)

  /** The object `calculateTotals` returns. */
  datatype Totals = Totals(subtotal: int, tax: int, preTotal: int, paymentFee: int, grandTotal: int)

  /** The tax rate, in percent. */
  const TaxPercent: int := 11

  /**
   * `PAYMENT_FEES`, in tenths of a percent, so that e-wallet's 1.5% is the
   * integer 15.
   */
  const PaymentFees: map<string, int> := map["bank-transfer" := 0, "e-wallet" := 15, "cod" := 0]

  /** True when `r` is `num / den` rounded to the nearest integer, halves upwards. */
  predicate RoundsTo(num: int, den: int, r: int)
    requires den > 0
  {
    2 * den * r - den <= 2 * num < 2 * den * r + den
  }

  /** `Math.round(num / den)`, computed exactly: `floor(num / den + 1/2)`. */
  function Round(num: int, den: int): (r: int)
    requires den > 0
    ensures RoundsTo(num, den, r)
    ensures num >= 0 ==> r >= 0
  {
    var q := (2 * num + den) / (2 * den);
    assert 2 * den * q <= 2 * num + den < 2 * den * q + 2 * den;
    q
  }

  /** `PAYMENT_FEES[method] || 0`: an unknown method pays no fee. */
  function FeePermille(payment: string): (f: int)
    ensures f == 15 <==> payment == "e-wallet"
    ensures f == 0 <==> payment != "e-wallet"
  {
    if payment in PaymentFees then PaymentFees[payment] else 0
  }

  /** `selectedShipping.cost || 0`. */
  function ShippingCost(s: Shipping): int
  {
    match s.cost
    case Some(c) => c
    case None => 0
  }

  function LineTotal(item: LineItem): int
  {
    item.price * item.qty
  }

  /**
   * `cart.reduce((sum, item) => sum + item.price * item.qty, 0)`: a fold
   * from the left, so the last item is added last.
   */
  function Subtotal(cart: seq<LineItem>): int
  {
    if cart == [] then 0 else Subtotal(cart[..|cart| - 1]) + LineTotal(cart[|cart| - 1])
  }

  /** The result of `calculateTotals` for the given cart and selections. */
  function CalculateTotals(cart: seq<LineItem>, shipping: Shipping, payment: string): (t: Totals)
    ensures t.subtotal == Subtotal(cart)
    ensures RoundsTo(TaxPercent * t.subtotal, 100, t.tax)
    ensures t.preTotal == t.subtotal + ShippingCost(shipping) + t.tax
    ensures payment == "e-wallet" ==> RoundsTo(15 * t.preTotal, 1000, t.paymentFee)
    ensures payment != "e-wallet" ==> t.paymentFee == 0
    ensures t.grandTotal == t.subtotal + ShippingCost(shipping) + t.tax + t.paymentFee
  {
    var subtotal := Subtotal(cart);
    var tax := Round(subtotal * TaxPercent, 100);
    var preTotal := subtotal + ShippingCost(shipping) + tax;
    var fee := Round(FeePermille(payment) * preTotal, 1000);
    Totals(subtotal, tax, preTotal, fee, preTotal + fee)
  }

  /** The sum over the cart does not depend on how the cart is split. */
  lemma {:induction false} SubtotalConcat(a: seq<LineItem>, b: seq<LineItem>)
    ensures Subtotal(a + b) == Subtotal(a) + Subtotal(b)
    decreases |b|
  {
    if b == [] {
      assert a + b == a;
    } else {
      var last := b[|b| - 1];
      assert (a + b)[..|a + b| - 1] == a + b[..|b| - 1];
      SubtotalConcat(a, b[..|b| - 1]);
    }
  }

  /** The subtotal is the sum of `price * qty` taken from the front as well. */
  lemma SubtotalCons(item: LineItem, rest: seq<LineItem>)
    ensures Subtotal([item] + rest) == item.price * item.qty + Subtotal(rest)
  {
    SubtotalConcat([item], rest);
    assert [item][..0] == [];
  }

  predicate NonNegativeItems(cart: seq<LineItem>)
  {
    forall i :: 0 <= i < |cart| ==> cart[i].price >= 0 && cart[i].qty >= 0
  }

  /** With no negative prices or quantities the subtotal is not negative. */
  lemma {:induction false} SubtotalNonNegative(cart: seq<LineItem>)
    requires NonNegativeItems(cart)
    ensures Subtotal(cart) >= 0
  {
    if cart != [] {
      var init := cart[..|cart| - 1];
      assert NonNegativeItems(init) by {
        forall i | 0 <= i < |init| ensures init[i].price >= 0 && init[i].qty >= 0 {
          assert init[i] == cart[i];
        }
      }
      SubtotalNonNegative(init);
      var last := cart[|cart| - 1];
      assert last.price >= 0 && last.qty >= 0;
      assert LineTotal(last) >= 0;
    }
  }

  /**
   * Each stage of the total only adds to the previous one when prices,
   * quantities and the shipping cost are not negative.
   */
  lemma TotalsOrdered(cart: seq<LineItem>, shipping: Shipping, payment: string)
    requires NonNegativeItems(cart)
    requires ShippingCost(shipping) >= 0
    ensures var t := CalculateTotals(cart, shipping, payment);
      0 <= t.subtotal <= t.preTotal <= t.grandTotal && t.tax >= 0 && t.paymentFee >= 0
  {
    SubtotalNonNegative(cart);
  }

  /** An empty cart has a zero subtotal and a zero tax. */
  lemma EmptyCartTotals(shipping: Shipping, payment: string)
    ensures var t := CalculateTotals([], shipping, payment);
      t.subtotal == 0 && t.tax == 0 && t.preTotal == ShippingCost(shipping)
  {
  }

  /** Two worked carts: one item of 100000 twice, regular shipping of 15000. */
  lemma WorkedExamples()
    ensures var cart := [LineItem("1", "Cat food", 100000, 2, "")];
      var shipping := Shipping("regular", Some(15000));
      CalculateTotals(cart, shipping, "bank-transfer") == Totals(200000, 22000, 237000, 0, 237000)
      && CalculateTotals(cart, shipping, "e-wallet") == Totals(200000, 22000, 237000, 3555, 240555)
  {
    var cart := [LineItem("1", "Cat food", 100000, 2, "")];
    assert cart[..0] == [];
  }
}
