/** The summary under the cart list: the items total, a flat delivery fee for
    a non-empty cart, and the grand total. Amounts are cents. */
module Summary {
  import opened Cart
  import opened CartProperties

  /** The delivery fee: five currency units. */
  const DeliveryFee: nat := 500

  /** The fee is charged once per non-empty cart, whatever its contents. */
  function Delivery(cart: seq<Line>): (fee: nat)
    ensures fee == DeliveryFee <==> cart != []
    ensures fee == 0 <==> cart == []
  {
    if |cart| > 0 then DeliveryFee else 0
  }

  /** The figure shown as the total: the items plus delivery. */
  function GrandTotal(cart: seq<Line>): (g: int)
    ensures cart == [] ==> g == 0
    ensures cart != [] ==> g == Total(cart) + DeliveryFee
  {
    Total(cart) + Delivery(cart)
  }

  /** An empty cart costs nothing: no items and no delivery. */
  lemma GrandTotalEmpty()
    ensures GrandTotal([]) == 0
  {
  }

  /** A cart whose quantities are at least one never costs less than its
      items total, and a non-empty one costs at least the delivery fee. */
  lemma GrandTotalBounds(cart: seq<Line>)
    requires PositiveQuantities(cart)
    ensures GrandTotal(cart) >= Total(cart) >= 0
    ensures cart != [] ==> GrandTotal(cart) >= DeliveryFee
  {
    TotalNonNegative(cart);
  }

  /** After an add the delivery fee is always due, and the grand total is the
      old items total plus one unit price plus the fee, whether or not the
      cart was empty before. */
  lemma GrandTotalAfterAdd(cart: seq<Line>, p: Product)
    ensures var i := IndexOf(cart, p.id);
      GrandTotal(Added(cart, p))
        == Total(cart) + (if i < |cart| then cart[i].price else p.price) + DeliveryFee
  {
    TotalAfterAdd(cart, p);
    assert |Added(cart, p)| > 0;
  }
}
