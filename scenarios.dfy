/** The rules put together as a shopper meets them: clicking "Add to Cart"
    on a card, then typing into the quantity input on the cart page. */
module Scenarios {
  import opened Cart
  import opened CartProperties
  import opened Summary
  import opened ProductId
  import opened QuantityInput
  import opened Store

  /** The product the click handler builds from a card's name, price in
      cents and image address. */
  function CardProduct(name: string, cents: nat, image: string): Product
  {
    Product(DeriveId(name), name, cents, image)
  }

  /** A click on a card whose derived id has no line appends a line with the
      card's name, price and image, the derived id and quantity one. A click
      on a card whose id already has a line only adds one unit to it: the
      stored name, price and image stay, whatever the card now shows. */
  lemma ClickOnCard(cart: seq<Line>, name: string, cents: nat, image: string)
    ensures var id, r := DeriveId(name), Added(cart, CardProduct(name, cents, image));
      (!Has(cart, id) ==> r == cart + [Line(id, name, cents, image, 1)])
      && (Has(cart, id) ==> var i := IndexOf(cart, id);
            |r| == |cart| && r[i] == cart[i].(quantity := cart[i].quantity + 1)
            && forall j :: 0 <= j < |cart| && j != i ==> r[j] == cart[j])
  {
    var p := CardProduct(name, cents, image);
    if Has(cart, p.id) {
      AddExisting(cart, p);
    } else {
      AddAbsent(cart, p);
    }
  }

  /** Two cards whose names derive the same id are one product in the cart:
      the second click increments the first click's line. */
  lemma SameIdMeansSameLine(cart: seq<Line>, n1: string, n2: string, c1: nat, c2: nat, i1: string, i2: string)
    requires !Has(cart, DeriveId(n1)) && DeriveId(n1) == DeriveId(n2)
    ensures var r := Added(Added(cart, CardProduct(n1, c1, i1)), CardProduct(n2, c2, i2));
      r == cart + [Line(DeriveId(n1), n1, c1, i1, 2)]
  {
    var p := CardProduct(n1, c1, i1);
    var once := Added(cart, p);
    assert once == cart + [NewLine(p)];
    assert once[|cart|].id == p.id;
    forall j | 0 <= j < |cart| ensures once[j].id != p.id {
      assert once[j] == cart[j];
    }
  }

  /** A click on the card "Blue Mug" priced $12.50 with an empty cart stores
      one line with id "blue-mug" and quantity one; typing 3 into its input
      then makes its subtotal $37.50 and the grand total $42.50. */
  lemma BlueMug(image: string)
    ensures var added := Added([], CardProduct("Blue Mug", 1250, image));
      added == [Line("blue-mug", "Blue Mug", 1250, image, 1)]
      && var changed := QuantityChanged(added, "blue-mug", QuantityRequested("3"));
      changed == [Line("blue-mug", "Blue Mug", 1250, image, 3)]
      && Subtotal(changed[0]) == 3750 && Total(changed) == 3750
      && GrandTotal(changed) == 4250
  {
    DeriveIdExample();
    var added := [Line("blue-mug", "Blue Mug", 1250, image, 1)];
    assert Decimal(3) == "3";
    QuantityOfNumber(3, "");
    assert "3" + "" == "3";
    assert IndexOf(added, "blue-mug") == 0;
    var changed := [Line("blue-mug", "Blue Mug", 1250, image, 3)];
    assert changed[1..] == [];
  }

  /** On a present line, an input emptied or holding no number sets the
      quantity to one rather than removing the line, and so does a number
      that parses to zero ("0", or "-0.5", whose -0 is falsy); a number of -1
      or less removes it; zero is never stored. */
  lemma QuantityInputOnLine(cart: seq<Line>, id: string, text: string)
    requires Valid(cart) && Has(cart, id)
    ensures var r := QuantityChanged(cart, id, QuantityRequested(text));
      Valid(r)
      && (ParseInt(text) == NaN ==> r[IndexOf(cart, id)].quantity == 1 && |r| == |cart|)
      && (ParseInt(text) == Int(0) ==> r[IndexOf(cart, id)].quantity == 1 && |r| == |cart|)
      && (ParseInt(text).Int? && ParseInt(text).value < 0 ==> !Has(r, id))
  {
    ChangePreservesValid(cart, id, QuantityRequested(text));
    if ParseInt(text).Int? && ParseInt(text).value < 0 {
      ChangeToNonPositive(cart, id, QuantityRequested(text));
    }
  }

  /** A fresh store given the same product twice holds one line of quantity
      two, and its total is twice the price. */
  method AddTwiceToEmptyStore(p: Product) returns (cart: seq<Line>, total: int)
    ensures cart == [NewLine(p).(quantity := 2)]
    ensures total == 2 * p.price
  {
    var store := new CartStore();
    cart := store.AddProductToCart(p);
    assert cart == [NewLine(p)];
    cart := store.AddProductToCart(p);
    AddTwice([], p);
    total := store.CalculateTotal();
    assert cart[1..] == [];
  }
}
