/** What the cart rules promise: the effect of each operation on the lines it
    touches and on those it does not, the invariant they keep, and the items
    total they produce. */
module CartProperties {
  import opened Cart

  // ----- helpers ----------------------------------------------------------

  /** A cart that lacks an id lacks it in its tail too. */
  lemma NoLineInTail(cart: seq<Line>, id: string)
    requires cart != [] && !Has(cart, id)
    ensures !Has(cart[1..], id)
  {
    forall j | 0 <= j < |cart[1..]| ensures cart[1..][j].id != id {
      assert cart[1..][j] == cart[j + 1];
    }
  }

  /** A cart with a first line is valid when its tail is valid, lacks that
      line's id, and that line has a positive quantity, and only then. */
  lemma ValidCons(l: Line, rest: seq<Line>)
    ensures Valid([l] + rest) <==> Valid(rest) && !Has(rest, l.id) && l.quantity >= 1
  {
    var c := [l] + rest;
    if Valid(c) {
      forall i, j | 0 <= i < j < |rest| ensures rest[i].id != rest[j].id {
        assert rest[i] == c[i + 1] && rest[j] == c[j + 1];
      }
      forall i | 0 <= i < |rest| ensures rest[i].quantity >= 1 && rest[i].id != l.id {
        assert c[0] == l && rest[i] == c[i + 1];
      }
    }
    if Valid(rest) && !Has(rest, l.id) && l.quantity >= 1 {
      forall i, j | 0 <= i < j < |c| ensures c[i].id != c[j].id {
        assert c[j] == rest[j - 1];
        if i > 0 {
          assert c[i] == rest[i - 1];
        }
      }
      forall i | 0 <= i < |c| ensures c[i].quantity >= 1 {
        if i > 0 {
          assert c[i] == rest[i - 1];
        }
      }
    }
  }

  // ----- add --------------------------------------------------------------

  /** Adding a product whose id is present gives that line one more unit and
      changes nothing else: not its other fields, not the other lines, not
      the length. */
  lemma AddExisting(cart: seq<Line>, p: Product)
    requires Has(cart, p.id)
    ensures var i, r := IndexOf(cart, p.id), Added(cart, p);
      |r| == |cart| && r[i].quantity == cart[i].quantity + 1
      && r[i].(quantity := cart[i].quantity) == cart[i]
      && forall j :: 0 <= j < |cart| && j != i ==> r[j] == cart[j]
  {
  }

  /** Adding a product whose id is absent appends one line with quantity one
      and the product's fields, after the earlier lines in their order. */
  lemma AddAbsent(cart: seq<Line>, p: Product)
    requires !Has(cart, p.id)
    ensures var r := Added(cart, p);
      |r| == |cart| + 1 && r[..|cart|] == cart
      && r[|cart|] == Line(p.id, p.name, p.price, p.image, 1)
  {
  }

  /** Adding the same new product twice gives one line with quantity two. */
  lemma AddTwice(cart: seq<Line>, p: Product)
    requires !Has(cart, p.id)
    ensures Added(Added(cart, p), p) == cart + [NewLine(p).(quantity := 2)]
  {
    var once := Added(cart, p);
    assert once == cart + [NewLine(p)];
    assert once[|cart|].id == p.id;
    forall j | 0 <= j < |cart| ensures once[j].id != p.id {
      assert once[j] == cart[j];
    }
    assert IndexOf(once, p.id) == |cart|;
  }

  lemma {:induction false} AddPreservesValid(cart: seq<Line>, p: Product)
    requires Valid(cart)
    ensures Valid(Added(cart, p))
  {
    var r := Added(cart, p);
    if !Has(cart, p.id) {
      assert r == cart + [NewLine(p)];
      forall i, j | 0 <= i < j < |r| ensures r[i].id != r[j].id {
        if j == |cart| {
          assert r[i] == cart[i];
        }
      }
    }
  }

  // ----- remove -----------------------------------------------------------

  /** A line survives a removal exactly when it was in the cart with another id. */
  lemma {:induction false} RemoveMembers(cart: seq<Line>, id: string, l: Line)
    ensures l in Removed(cart, id) <==> l in cart && l.id != id
  {
    if cart != [] {
      RemoveMembers(cart[1..], id, l);
      assert cart == [cart[0]] + cart[1..];
    }
  }

  /** Removing an id that no line has leaves the cart as it was. */
  lemma {:induction false} RemoveAbsent(cart: seq<Line>, id: string)
    requires !Has(cart, id)
    ensures Removed(cart, id) == cart
  {
    if cart != [] {
      assert cart[0].id != id;
      NoLineInTail(cart, id);
      RemoveAbsent(cart[1..], id);
      assert cart == [cart[0]] + cart[1..];
    }
  }

  /** After a removal no line has the id. */
  lemma RemoveLeavesNoLine(cart: seq<Line>, id: string)
    ensures !Has(Removed(cart, id), id)
  {
    var r := Removed(cart, id);
    forall j | 0 <= j < |r| ensures r[j].id != id {
      assert r[j] in r;
      RemoveMembers(cart, id, r[j]);
    }
  }

  /** Removal works line by line: it keeps the relative order of what stays. */
  lemma {:induction false} RemoveConcat(a: seq<Line>, b: seq<Line>, id: string)
    ensures Removed(a + b, id) == Removed(a, id) + Removed(b, id)
  {
    if a == [] {
      assert a + b == b;
    } else {
      assert (a + b)[0] == a[0];
      assert (a + b)[1..] == a[1..] + b;
      RemoveConcat(a[1..], b, id);
    }
  }

  /** In a cart with unique ids, removing a present id takes out exactly the
      line where it sits and keeps the lines before and after in order. */
  lemma {:induction false} RemovePresent(cart: seq<Line>, id: string)
    requires UniqueIds(cart) && Has(cart, id)
    ensures var i := IndexOf(cart, id);
      Removed(cart, id) == cart[..i] + cart[i + 1..]
  {
    var i := IndexOf(cart, id);
    NoLineAroundFirst(cart, id);
    RemoveBetween(cart[..i], cart[i], cart[i + 1..], id);
    assert cart == cart[..i] + [cart[i]] + cart[i + 1..];
  }

  /** Removing the id of the one line that has it, between lines that do
      not, leaves the lines around it. */
  lemma {:induction false} RemoveBetween(before: seq<Line>, l: Line, after: seq<Line>, id: string)
    requires !Has(before, id) && l.id == id && !Has(after, id)
    ensures Removed(before + [l] + after, id) == before + after
  {
    RemoveAbsent(before, id);
    RemoveAbsent(after, id);
    assert [l][1..] == [];
    assert Removed([l], id) == [];
    RemoveConcat(before, [l], id);
    RemoveConcat(before + [l], after, id);
  }

  /** In a cart with unique ids, no line before or after the first one with
      an id has that id. */
  lemma NoLineAroundFirst(cart: seq<Line>, id: string)
    requires UniqueIds(cart) && Has(cart, id)
    ensures var i := IndexOf(cart, id);
      !Has(cart[..i], id) && !Has(cart[i + 1..], id)
  {
    var i := IndexOf(cart, id);
    var before, after := cart[..i], cart[i + 1..];
    forall j | 0 <= j < |before| ensures before[j].id != id {
      assert before[j] == cart[j];
    }
    forall j | 0 <= j < |after| ensures after[j].id != id {
      assert after[j] == cart[i + 1 + j];
    }
  }

  /** A removal never brings in an id the cart did not have. */
  lemma {:induction false} RemoveKeepsAbsence(cart: seq<Line>, id: string, other: string)
    requires !Has(cart, other)
    ensures !Has(Removed(cart, id), other)
  {
    var r := Removed(cart, id);
    forall j | 0 <= j < |r| ensures r[j].id != other {
      assert r[j] in r;
      RemoveMembers(cart, id, r[j]);
    }
  }

  lemma {:induction false} RemovePreservesValid(cart: seq<Line>, id: string)
    requires Valid(cart)
    ensures Valid(Removed(cart, id))
  {
    if cart != [] {
      ValidCons(cart[0], cart[1..]);
      assert cart == [cart[0]] + cart[1..];
      RemovePreservesValid(cart[1..], id);
      if cart[0].id != id {
        RemoveKeepsAbsence(cart[1..], id, cart[0].id);
        ValidCons(cart[0], Removed(cart[1..], id));
      }
    }
  }

  // ----- change quantity ----------------------------------------------------

  /** A quantity change for an id that no line has leaves the cart as it was. */
  lemma ChangeAbsent(cart: seq<Line>, id: string, quantity: int)
    requires !Has(cart, id)
    ensures QuantityChanged(cart, id, quantity) == cart
  {
  }

  /** A quantity of zero or less on a present id is a removal. */
  lemma ChangeToNonPositive(cart: seq<Line>, id: string, quantity: int)
    requires Has(cart, id) && quantity <= 0
    ensures QuantityChanged(cart, id, quantity) == Removed(cart, id)
    ensures !Has(QuantityChanged(cart, id, quantity), id)
  {
    RemoveLeavesNoLine(cart, id);
  }

  /** A positive quantity on a present id sets that line's quantity and
      changes nothing else. */
  lemma ChangeToPositive(cart: seq<Line>, id: string, quantity: int)
    requires Has(cart, id) && quantity > 0
    ensures var i, r := IndexOf(cart, id), QuantityChanged(cart, id, quantity);
      |r| == |cart| && r[i].quantity == quantity
      && r[i].(quantity := cart[i].quantity) == cart[i]
      && forall j :: 0 <= j < |cart| && j != i ==> r[j] == cart[j]
  {
  }

  lemma ChangePreservesValid(cart: seq<Line>, id: string, quantity: int)
    requires Valid(cart)
    ensures Valid(QuantityChanged(cart, id, quantity))
  {
    if Has(cart, id) && quantity <= 0 {
      RemovePreservesValid(cart, id);
    }
  }

  // ----- total --------------------------------------------------------------

  /** The items total of two carts put together is the sum of their totals. */
  lemma {:induction false} TotalConcat(a: seq<Line>, b: seq<Line>)
    ensures Total(a + b) == Total(a) + Total(b)
  {
    if a == [] {
      assert a + b == b;
    } else {
      assert (a + b)[0] == a[0];
      assert (a + b)[1..] == a[1..] + b;
      TotalConcat(a[1..], b);
    }
  }

  /** Replacing one line changes the total by the difference of subtotals. */
  lemma {:induction false} TotalUpdate(cart: seq<Line>, i: nat, l: Line)
    requires i < |cart|
    ensures Total(cart[i := l]) == Total(cart) - Subtotal(cart[i]) + Subtotal(l)
  {
    if i > 0 {
      assert cart[i := l][1..] == cart[1..][i - 1 := l];
      TotalUpdate(cart[1..], i - 1, l);
    } else {
      assert cart[i := l][1..] == cart[1..];
    }
  }

  /** The total of a cart whose quantities are at least one is never negative. */
  lemma {:induction false} TotalNonNegative(cart: seq<Line>)
    requires PositiveQuantities(cart)
    ensures Total(cart) >= 0
  {
    if cart != [] {
      assert PositiveQuantities(cart[1..]) by {
        forall i | 0 <= i < |cart[1..]| ensures cart[1..][i].quantity >= 1 {
          assert cart[1..][i] == cart[i + 1];
        }
      }
      TotalNonNegative(cart[1..]);
    }
  }

  /** Adding a product raises the total by one unit price: the stored line's
      price when the id is present, the product's price otherwise. */
  lemma {:induction false} TotalAfterAdd(cart: seq<Line>, p: Product)
    ensures var i := IndexOf(cart, p.id);
      Total(Added(cart, p)) == Total(cart) + (if i < |cart| then cart[i].price else p.price)
  {
    var i := IndexOf(cart, p.id);
    if i < |cart| {
      var l := cart[i];
      assert Subtotal(l.(quantity := l.quantity + 1)) == Subtotal(l) + l.price by {
        assert l.price * (l.quantity + 1) == l.price * l.quantity + l.price;
      }
      TotalUpdate(cart, i, l.(quantity := l.quantity + 1));
    } else {
      TotalConcat(cart, [NewLine(p)]);
      assert [NewLine(p)][1..] == [];
      assert Total([NewLine(p)]) == p.price;
    }
  }

  /** Removing a present id from a cart with unique ids lowers the total by
      that line's subtotal. */
  lemma TotalAfterRemove(cart: seq<Line>, id: string)
    requires UniqueIds(cart) && Has(cart, id)
    ensures Total(Removed(cart, id)) == Total(cart) - Subtotal(cart[IndexOf(cart, id)])
  {
    var i := IndexOf(cart, id);
    RemovePresent(cart, id);
    assert cart == cart[..i] + [cart[i]] + cart[i + 1..];
    TotalConcat(cart[..i] + [cart[i]], cart[i + 1..]);
    TotalConcat(cart[..i], [cart[i]]);
    TotalConcat(cart[..i], cart[i + 1..]);
  }

  /** Two lines, ten dollars twice and five dollars once, total 25 dollars. */
  lemma TotalExample(a: Line, b: Line)
    requires a.price == 1000 && a.quantity == 2 && b.price == 500 && b.quantity == 1
    ensures Total([a, b]) == 2500
  {
    assert [a, b][1..] == [b] && [b][1..] == [];
    assert Total([b]) == 500;
  }
}
