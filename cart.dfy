/** The cart as a value: an insertion-ordered sequence of lines keyed by the
    product id, and the rules that add a product, remove a product, change a
    quantity and total the cart. Prices are whole cents. */
module Cart {

  /** What the "Add to Cart" handler reads from a product card. */
  datatype Product = Product(id: string, name: string, price: nat, image: string)

  /** One cart line, as stored. */
  datatype Line = Line(id: string, name: string, price: nat, image: string, quantity: int)

  /** The cost of one line: unit price times quantity. */
  function Subtotal(l: Line): int
  {
    l.price * l.quantity
  }

  predicate Has(cart: seq<Line>, id: string)
  {
    exists j :: 0 <= j < |cart| && cart[j].id == id
  }

  /** No two lines share an id. */
  ghost predicate UniqueIds(cart: seq<Line>)
  {
    forall i, j :: 0 <= i < j < |cart| ==> cart[i].id != cart[j].id
  }

  /** Every line has a quantity of at least one. */
  ghost predicate PositiveQuantities(cart: seq<Line>)
  {
    forall i :: 0 <= i < |cart| ==> cart[i].quantity >= 1
  }

  /** The invariant the store's operations keep. */
  ghost predicate Valid(cart: seq<Line>)
  {
    UniqueIds(cart) && PositiveQuantities(cart)
  }

  /** The position of the first line with the given id, or |cart| when there
      is none: what `cart.find(item => item.id === id)` locates. */
  function IndexOf(cart: seq<Line>, id: string): (i: nat)
    ensures i <= |cart|
    ensures i < |cart| ==> cart[i].id == id
    ensures forall j :: 0 <= j < i ==> cart[j].id != id
    ensures i < |cart| <==> Has(cart, id)
  {
    if cart == [] then 0
    else if cart[0].id == id then 0
    else 1 + IndexOf(cart[1..], id)
  }

  /** The line a product becomes when it is first added. */
  function NewLine(p: Product): Line
  {
    Line(p.id, p.name, p.price, p.image, 1)
  }

  /** The cart after adding `p`: the line with its id gets one more unit,
      or, when there is none, a new line with quantity one goes at the end. */
  function Added(cart: seq<Line>, p: Product): (r: seq<Line>)
    ensures |r| == if Has(cart, p.id) then |cart| else |cart| + 1
    ensures Has(r, p.id)
  {
    var i := IndexOf(cart, p.id);
    if i < |cart| then
      var r := cart[i := cart[i].(quantity := cart[i].quantity + 1)];
      assert r[i].id == p.id;
      r
    else
      var r := cart + [NewLine(p)];
      assert r[|cart|].id == p.id;
      r
  }

  /** The cart without the lines whose id is `id`, the others in order. */
  function Removed(cart: seq<Line>, id: string): (r: seq<Line>)
    ensures |r| <= |cart|
  {
    if cart == [] then []
    else if cart[0].id == id then Removed(cart[1..], id)
    else [cart[0]] + Removed(cart[1..], id)
  }

  /** The cart after a quantity change: unchanged when no line has the id,
      the line removed when the quantity is zero or less, and otherwise the
      first line with the id given the new quantity. */
  function QuantityChanged(cart: seq<Line>, id: string, quantity: int): (r: seq<Line>)
    ensures |r| <= |cart|
    ensures quantity > 0 || !Has(cart, id) ==> |r| == |cart|
  {
    var i := IndexOf(cart, id);
    if i == |cart| then cart
    else if quantity <= 0 then Removed(cart, id)
    else cart[i := cart[i].(quantity := quantity)]
  }

  /** The items total: the sum of price times quantity over all lines. */
  function Total(cart: seq<Line>): (t: int)
    ensures (forall i :: 0 <= i < |cart| ==> cart[i].quantity >= 0) ==> t >= 0
  {
    if cart == [] then 0 else Subtotal(cart[0]) + Total(cart[1..])
  }
}
