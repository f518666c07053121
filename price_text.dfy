/** The price text of a product card, reduced to digits and dots before the
    "Add to Cart" handler parses it as a number. */
module PriceFilter {
  predicate IsPriceChar(c: char)
  {
    '0' <= c <= '9' || c == '.'
  }

  /** `replace(/[^0-9.]/g, "")`: the price text with everything but digits
      and dots taken out, the rest in order. */
  function PriceText(s: string): (r: string)
    ensures forall i :: 0 <= i < |r| ==> IsPriceChar(r[i])
    ensures forall c :: c in r <==> c in s && IsPriceChar(c)
  {
    if s == [] then []
    else if IsPriceChar(s[0]) then [s[0]] + PriceText(s[1..])
    else PriceText(s[1..])
  }

  /** The filter works piece by piece: the kept characters of a joined
      text are those of the first piece followed by those of the second. */
  lemma {:induction false} PriceTextConcat(a: string, b: string)
    ensures PriceText(a + b) == PriceText(a) + PriceText(b)
  {
    if a == [] {
      assert a + b == b;
    } else {
      assert (a + b)[0] == a[0];
      assert (a + b)[1..] == a[1..] + b;
      PriceTextConcat(a[1..], b);
    }
  }

  /** One character is kept exactly when it is a digit or a dot. */
  lemma PriceTextChar(c: char)
    ensures PriceText([c]) == if IsPriceChar(c) then [c] else []
  {
    assert [c][1..] == [];
  }

  /** Text made only of digits and dots is kept whole. */
  lemma {:induction false} PriceTextClean(s: string)
    requires forall i :: 0 <= i < |s| ==> IsPriceChar(s[i])
    ensures PriceText(s) == s
  {
    if s != [] {
      assert forall i :: 0 <= i < |s[1..]| ==> IsPriceChar(s[1..][i]) by {
        forall i | 0 <= i < |s[1..]| ensures IsPriceChar(s[1..][i]) {
          assert s[1..][i] == s[i + 1];
        }
      }
      PriceTextClean(s[1..]);
      assert s == [s[0]] + s[1..];
    }
  }

  /** The text "$12.50" is reduced to "12.50". */
  lemma PriceTextExample()
    ensures PriceText("$12.50") == "12.50"
  {
    assert "$12.50"[1..] == "12.50";
    PriceTextClean("12.50");
  }
}
