/** Characters and leading-whitespace handling shared by the id derivation
    and by the quantity-input parser. */
module Text {

  /** The characters that the regular-expression class `\s` matches and that
      `parseInt` skips before a number: the ECMAScript WhiteSpace and
      LineTerminator characters. */
  predicate IsSpace(c: char)
  {
    c == ' ' || c == '\t' || c == '\n' || c == '\U{000B}' || c == '\U{000C}' || c == '\r'
    || c == '\U{00A0}' || c == '\U{1680}' || ('\U{2000}' <= c <= '\U{200A}')
    || c == '\U{2028}' || c == '\U{2029}' || c == '\U{202F}' || c == '\U{205F}'
    || c == '\U{3000}' || c == '\U{FEFF}'
  }

  predicate NoSpace(s: string)
  {
    forall i :: 0 <= i < |s| ==> !IsSpace(s[i])
  }

  predicate AllSpace(s: string)
  {
    forall i :: 0 <= i < |s| ==> IsSpace(s[i])
  }

  /** Drops the maximal run of whitespace at the front of `s`. */
  function SkipSpaces(s: string): (r: string)
    ensures |r| <= |s|
    ensures r == [] || !IsSpace(r[0])
    ensures s != [] && IsSpace(s[0]) ==> |r| < |s|
  {
    if s != [] && IsSpace(s[0]) then SkipSpaces(s[1..]) else s
  }

  /** Whitespace in front of `s` makes no difference to what is left once
      the leading whitespace is skipped. */
  lemma {:induction false} SkipSpacesAfterSpaces(w: string, s: string)
    requires AllSpace(w)
    ensures SkipSpaces(w + s) == SkipSpaces(s)
  {
    if w != [] {
      assert (w + s)[0] == w[0] && IsSpace(w[0]);
      assert (w + s)[1..] == w[1..] + s;
      SkipSpacesAfterSpaces(w[1..], s);
    } else {
      assert w + s == s;
    }
  }

  /** When `a` holds a non-whitespace character, skipping the leading
      whitespace of `a + b` stops inside `a`. */
  lemma {:induction false} SkipSpacesConcat(a: string, b: string)
    requires !AllSpace(a)
    ensures SkipSpaces(a + b) == SkipSpaces(a) + b
  {
    assert (a + b)[0] == a[0];
    if IsSpace(a[0]) {
      assert (a + b)[1..] == a[1..] + b;
      assert !AllSpace(a[1..]) by {
        var k :| 0 <= k < |a| && !IsSpace(a[k]);
        assert a[1..][k - 1] == a[k];
      }
      SkipSpacesConcat(a[1..], b);
    }
  }

  /** Skipping leading whitespace keeps the last character when that one is
      not whitespace. */
  lemma {:induction false} SkipSpacesKeepsLast(s: string)
    requires s != [] && !IsSpace(s[|s| - 1])
    ensures var r := SkipSpaces(s); r != [] && r[|r| - 1] == s[|s| - 1]
  {
    if IsSpace(s[0]) {
      assert |s| > 1;
      assert s[1..][|s| - 2] == s[|s| - 1];
      SkipSpacesKeepsLast(s[1..]);
    }
  }

  /** What is left after skipping is a suffix of the text, and what was
      skipped is all whitespace. */
  lemma {:induction false} SkipSpacesSuffix(s: string)
    ensures var r := SkipSpaces(s); r == s[|s| - |r|..] && AllSpace(s[..|s| - |r|])
  {
    if s != [] && IsSpace(s[0]) {
      SkipSpacesSuffix(s[1..]);
      var n := |s| - |SkipSpaces(s)|;
      assert s[1..][n - 1..] == s[n..];
      var skipped := s[..n];
      assert AllSpace(skipped) by {
        forall i | 0 <= i < n ensures IsSpace(skipped[i]) {
          if i > 0 {
            assert skipped[i] == s[1..][..n - 1][i - 1];
          }
        }
      }
    }
  }
}
