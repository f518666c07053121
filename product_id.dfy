/** How the "Add to Cart" handler turns the display name of a product card
    into the product's id: lower-cased, with each run of whitespace replaced
    by one hyphen. */
module ProductId {
  import opened Text

  predicate IsUpper(c: char)
  {
    'A' <= c <= 'Z'
  }

  predicate NoUpper(s: string)
  {
    forall i :: 0 <= i < |s| ==> !IsUpper(s[i])
  }

  function LowerChar(c: char): char
  {
    if IsUpper(c) then (c as int - 'A' as int + 'a' as int) as char else c
  }

  /** `toLowerCase`, restricted to the ASCII letters. */
  function Lower(s: string): (r: string)
    ensures |r| == |s| && NoUpper(r)
    ensures forall i :: 0 <= i < |s| ==> (IsSpace(r[i]) <==> IsSpace(s[i]))
    ensures NoUpper(s) ==> r == s
    ensures forall i :: 0 <= i < |s| ==>
      (!IsUpper(s[i]) ==> r[i] == s[i]) && (IsUpper(s[i]) ==> r[i] as int == s[i] as int + 32)
  {
    seq(|s|, i requires 0 <= i < |s| => LowerChar(s[i]))
  }

  /** `replace(/\s+/g, "-")`: each maximal run of whitespace becomes one
      hyphen; every other character stays. */
  function Hyphenate(s: string): (r: string)
    ensures NoSpace(r)
    decreases |s|
  {
    if s == [] then []
    else if IsSpace(s[0]) then
      var rest := Hyphenate(SkipSpaces(s));
      assert !IsSpace('-');
      "-" + rest
    else
      [s[0]] + Hyphenate(s[1..])
  }

  /** The cart id of a product with the given display name. */
  function DeriveId(name: string): (id: string)
    ensures NoSpace(id) && NoUpper(id)
  {
    HyphenateKeepsNoUpper(Lower(name));
    Hyphenate(Lower(name))
  }

  /** The replacement brings in no upper-case letter. */
  lemma {:induction false} HyphenateKeepsNoUpper(s: string)
    requires NoUpper(s)
    ensures NoUpper(Hyphenate(s))
    decreases |s|
  {
    if s != [] {
      var t := if IsSpace(s[0]) then SkipSpaces(s) else s[1..];
      SkipSpacesSuffix(s);
      assert NoUpper(t) by {
        forall i | 0 <= i < |t| ensures !IsUpper(t[i]) {
          assert t[i] == s[|s| - |t| + i];
        }
      }
      HyphenateKeepsNoUpper(t);
      assert IsSpace(s[0]) ==> !IsUpper('-');
    }
  }

  /** Text without whitespace goes through the replacement unchanged. */
  lemma {:induction false} HyphenateNoSpace(s: string)
    requires NoSpace(s)
    ensures Hyphenate(s) == s
  {
    if s != [] {
      assert NoSpace(s[1..]) by {
        forall i | 0 <= i < |s[1..]| ensures !IsSpace(s[1..][i]) {
          assert s[1..][i] == s[i + 1];
        }
      }
      HyphenateNoSpace(s[1..]);
      assert s == [s[0]] + s[1..];
    }
  }

  /** The replacement works piece by piece when the first piece does not end
      inside a run of whitespace. */
  lemma {:induction false} HyphenateConcat(a: string, b: string)
    requires a == [] || !IsSpace(a[|a| - 1])
    ensures Hyphenate(a + b) == Hyphenate(a) + Hyphenate(b)
    decreases |a|, 1
  {
    if a == [] {
      assert a + b == b;
    } else if IsSpace(a[0]) {
      HyphenateConcatAtSpace(a, b);
    } else {
      HyphenateConcatAtChar(a, b);
    }
  }

  lemma {:induction false} HyphenateConcatAtSpace(a: string, b: string)
    requires a != [] && IsSpace(a[0]) && !IsSpace(a[|a| - 1])
    ensures Hyphenate(a + b) == Hyphenate(a) + Hyphenate(b)
    decreases |a|, 0
  {
    assert (a + b)[0] == a[0];
    assert !AllSpace(a);
    SkipSpacesConcat(a, b);
    var t := SkipSpaces(a);
    SkipSpacesKeepsLast(a);
    HyphenateConcat(t, b);
    assert Hyphenate(a + b) == "-" + Hyphenate(t + b);
    assert Hyphenate(a) == "-" + Hyphenate(t);
  }

  lemma {:induction false} HyphenateConcatAtChar(a: string, b: string)
    requires a != [] && !IsSpace(a[0]) && !IsSpace(a[|a| - 1])
    ensures Hyphenate(a + b) == Hyphenate(a) + Hyphenate(b)
    decreases |a|, 0
  {
    assert (a + b)[0] == a[0];
    assert (a + b)[1..] == a[1..] + b;
    assert a[1..] == [] || a[1..][|a[1..]| - 1] == a[|a| - 1];
    HyphenateConcat(a[1..], b);
    assert Hyphenate(a + b) == [a[0]] + Hyphenate(a[1..] + b);
  }

  /** A maximal run of whitespace, between text that does not end with
      whitespace and text that does not start with it, becomes exactly one
      hyphen. */
  lemma {:induction false} HyphenateRun(a: string, w: string, b: string)
    requires a == [] || !IsSpace(a[|a| - 1])
    requires w != [] && AllSpace(w)
    requires b == [] || !IsSpace(b[0])
    ensures Hyphenate(a + w + b) == Hyphenate(a) + "-" + Hyphenate(b)
  {
    assert a + w + b == a + (w + b);
    HyphenateConcat(a, w + b);
    HyphenateAfterRun(w, b);
  }

  /** A run of whitespace at the front becomes one hyphen. */
  lemma {:induction false} HyphenateAfterRun(w: string, b: string)
    requires w != [] && AllSpace(w)
    requires b == [] || !IsSpace(b[0])
    ensures Hyphenate(w + b) == "-" + Hyphenate(b)
  {
    assert (w + b)[0] == w[0];
    SkipSpacesAfterSpaces(w, b);
    assert SkipSpaces(b) == b;
  }

  /** Deriving the id of an id gives the id back. */
  lemma DeriveIdIdempotent(name: string)
    ensures DeriveId(DeriveId(name)) == DeriveId(name)
  {
    var id := DeriveId(name);
    assert Lower(id) == id;
    HyphenateNoSpace(id);
  }

  /** The card named "Blue Mug" gets the id "blue-mug". */
  lemma DeriveIdExample()
    ensures DeriveId("Blue Mug") == "blue-mug"
  {
    LowerExample();
    HyphenateExample();
  }

  lemma LowerExample()
    ensures Lower("Blue Mug") == "blue mug"
  {
    var lowered := Lower("Blue Mug");
    forall i | 0 <= i < 8 ensures lowered[i] == "blue mug"[i] {
    }
  }

  lemma HyphenateExample()
    ensures Hyphenate("blue mug") == "blue-mug"
  {
    HyphenateTwoWords("blue", "mug");
    assert "blue" + " " + "mug" == "blue mug";
    assert "blue" + "-" + "mug" == "blue-mug";
  }

  lemma HyphenateTwoWords(a: string, b: string)
    requires a != [] && b != [] && NoSpace(a) && NoSpace(b)
    ensures Hyphenate(a + " " + b) == a + "-" + b
  {
    HyphenateRun(a, " ", b);
    HyphenateNoSpace(a);
    HyphenateNoSpace(b);
  }
}
