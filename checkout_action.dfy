/**
 * The server action that prices a cart. It sums a per-item price, then
 * replaces the sum by the flat custom-batch price whenever the cart is not
 * empty, so the per-item prices never reach the answer.
 */
module CheckoutAction {
  import opened Wrappers

  const CustomBatchPrice: real := 45.0
  const DefaultPrice: real := 12.0

  /** `PRICING_DB[id] ?? PRICING_DB.default`. */
  function Price(id: string): (p: real)
    ensures p == CustomBatchPrice <==> id == "custom_batch"
    ensures p == CustomBatchPrice || p == DefaultPrice
  {
    if id == "custom_batch" then CustomBatchPrice else DefaultPrice
  }

  /** The per-item sum the loop accumulates: positive exactly when the cart is not empty. */
  function PriceSum(items: seq<string>): (total: real)
    ensures 0.0 <= total
    ensures total == 0.0 <==> items == []
  {
    if items == [] then 0.0 else PriceSum(items[..|items| - 1]) + Price(items[|items| - 1])
  }

  /** Every item costs between 12 and 45, so the sum lies between 12 and 45 per item. */
  lemma {:induction false} PriceSumBounds(items: seq<string>)
    ensures DefaultPrice * |items| as real <= PriceSum(items) <= CustomBatchPrice * |items| as real
    decreases |items|
  {
    if items != [] {
      PriceSumBounds(items[..|items| - 1]);
    }
  }

  datatype PaymentIntent = PaymentIntent(ok: bool, total: real, clientSecret: Option<string>)

  /**
   * `generatePaymentIntent(cartItems)`: always `ok`, no client secret, and a
   * total of 45 for any non-empty cart and 0 for the empty one. The cart is
   * only read. `itemSum` is the per-item sum the loop computes before it is
   * overwritten.
   */
  method GeneratePaymentIntent(cartItems: seq<string>) returns (r: PaymentIntent, ghost itemSum: real)
    ensures r.ok && r.clientSecret == None
    ensures r.total == (if |cartItems| > 0 then CustomBatchPrice else 0.0)
    ensures itemSum == PriceSum(cartItems)
  {
    var total := 0.0;
    for i := 0 to |cartItems|
      invariant total == PriceSum(cartItems[..i])
    {
      assert cartItems[..i + 1][..i] == cartItems[..i];
      total := total + Price(cartItems[i]);
    }
    assert cartItems[..|cartItems|] == cartItems;
    itemSum := total;
    if |cartItems| > 0 {
      total := CustomBatchPrice;
    }
    r := PaymentIntent(true, total, None);
  }

  /** Two ordinary ingredients sum to 24 per item, yet the answer is the flat 45. */
  lemma ItemSumDiscarded()
    ensures PriceSum(["kale", "beet"]) == 24.0 != CustomBatchPrice
  {
    assert ["kale", "beet"][..1] == ["kale"];
    assert ["kale"][..0] == [];
  }
}
