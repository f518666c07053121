/** The cart store: one storage slot holding the whole cart, and the
    operations that read it, change the copy they read, and write it back. */
module Store {
  import opened Cart
  import opened CartProperties
  import opened Summary
  import opened QuantityInput

  class CartStore {
    /** The cart held in the storage slot. */
    var saved: seq<Line>

    /** A slot with nothing stored reads as the empty cart. */
    constructor ()
      ensures saved == []
    {
      saved := [];
    }

    /** Adds one unit of `product`: the line with its id is incremented in
        place, or a new line is pushed; the cart is then stored and returned. */
    method AddProductToCart(product: Product) returns (cart: seq<Line>)
      modifies this
      ensures saved == Added(old(saved), product) && cart == saved
      ensures Valid(old(saved)) ==> Valid(saved)
    {
      cart := saved;
      var i := IndexOf(cart, product.id);
      if i < |cart| {
        cart := cart[i := cart[i].(quantity := cart[i].quantity + 1)];
      } else {
        cart := cart + [NewLine(product)];
      }
      if Valid(saved) {
        AddPreservesValid(saved, product);
      }
      saved := cart;
    }

    /** Stores and returns the cart without the lines of `id`. */
    method RemoveProductFromCart(id: string) returns (cart: seq<Line>)
      modifies this
      ensures saved == Removed(old(saved), id) && cart == saved
      ensures Valid(old(saved)) ==> Valid(saved)
    {
      if Valid(saved) {
        RemovePreservesValid(saved, id);
      }
      cart := Removed(saved, id);
      saved := cart;
    }

    /** Sets the quantity of the line with `id`; zero or less removes the
        line; an id with no line leaves the store as it was. Returns the cart. */
    method ChangeQuantity(id: string, quantity: int) returns (cart: seq<Line>)
      modifies this
      ensures saved == QuantityChanged(old(saved), id, quantity) && cart == saved
      ensures Valid(old(saved)) ==> Valid(saved)
    {
      if Valid(saved) {
        ChangePreservesValid(saved, id, quantity);
      }
      cart := saved;
      var i := IndexOf(cart, id);
      if i < |cart| {
        if quantity <= 0 {
          cart := RemoveProductFromCart(id);
          return;
        }
        cart := cart[i := cart[i].(quantity := quantity)];
        saved := cart;
      }
    }

    /** The change handler of a quantity input: the typed text, parsed with
        `|| 1` as fallback, is the requested quantity of a quantity change, so
        a positive value sets the line's quantity, a negative one removes the
        line, and an id with no line leaves the store as it was. */
    method ApplyQuantityInput(id: string, text: string)
      modifies this
      ensures saved == QuantityChanged(old(saved), id, QuantityRequested(text))
      ensures Valid(old(saved)) ==> Valid(saved)
    {
      var _ := ChangeQuantity(id, QuantityRequested(text));
    }

    /** Sums price times quantity over the stored lines, one line at a time. */
    method CalculateTotal() returns (total: int)
      ensures total == Total(saved)
    {
      var cart := saved;
      total := 0;
      var k := 0;
      while k < |cart|
        invariant 0 <= k <= |cart|
        invariant total == Total(cart[..k])
      {
        assert cart[..k + 1] == cart[..k] + [cart[k]];
        TotalConcat(cart[..k], [cart[k]]);
        assert [cart[k]][1..] == [];
        total := total + cart[k].price * cart[k].quantity;
        k := k + 1;
      }
      assert cart[..k] == cart;
    }

    /** The three summary figures of the cart page: the items total, the
        delivery fee (charged only for a non-empty cart) and their sum. */
    method CartSummary() returns (itemsTotal: int, delivery: nat, grandTotal: int)
      ensures itemsTotal == Total(saved)
      ensures delivery == (if saved != [] then DeliveryFee else 0)
      ensures grandTotal == itemsTotal + delivery == GrandTotal(saved)
    {
      itemsTotal := CalculateTotal();
      delivery := if |saved| > 0 then DeliveryFee else 0;
      grandTotal := itemsTotal + delivery;
    }
  }
}
