/**
 Python's `str.strip()` without arguments: removal of leading and trailing
 whitespace, where whitespace is the fixed set of characters CPython's
 `str.isspace` accepts.
 */
module PyStrings {

  /** The characters `str.strip()` removes. */
  predicate IsSpace(c: char) {
    || c == ' '
    || '\t' <= c <= '\r'
    || '\U{1C}' <= c <= '\U{1F}'
    || c == '\U{85}'
    || c == '\U{A0}'
    || c == '\U{1680}'
    || '\U{2000}' <= c <= '\U{200A}'
    || c == '\U{2028}'
    || c == '\U{2029}'
    || c == '\U{202F}'
    || c == '\U{205F}'
    || c == '\U{3000}'
  }

  /** Empty, or made of whitespace only. */
  predicate IsBlank(s: string) {
    forall k | 0 <= k < |s| :: IsSpace(s[k])
  }

  /** Neither begins nor ends with whitespace. */
  predicate IsStripped(s: string) {
    |s| > 0 ==> !IsSpace(s[0]) && !IsSpace(s[|s| - 1])
  }

  /** `r` is what is left of `s` once its first `i` characters and the
      characters after `r` are cut off, and all that was cut is whitespace. */
  ghost predicate StrippedAt(s: string, r: string, i: int) {
    && 0 <= i <= i + |r| <= |s|
    && s[i..i + |r|] == r
    && IsBlank(s[..i])
    && IsBlank(s[i + |r|..])
  }

  /** Number of whitespace characters at the front of `s`. */
  function LeadingSpaces(s: string): (n: nat)
    ensures n <= |s|
    ensures forall k | 0 <= k < n :: IsSpace(s[k])
    ensures n < |s| ==> !IsSpace(s[n])
  {
    if |s| > 0 && IsSpace(s[0]) then 1 + LeadingSpaces(s[1..]) else 0
  }

  /** Number of whitespace characters at the back of `s`. */
  function TrailingSpaces(s: string): (n: nat)
    ensures n <= |s|
    ensures forall k | |s| - n <= k < |s| :: IsSpace(s[k])
    ensures n < |s| ==> !IsSpace(s[|s| - 1 - n])
  {
    if |s| > 0 && IsSpace(s[|s| - 1]) then 1 + TrailingSpaces(s[..|s| - 1]) else 0
  }

  /** `s.strip()`. */
  function Strip(s: string): (r: string)
    ensures IsStripped(r)
    ensures r == [] <==> IsBlank(s)
    ensures exists i :: StrippedAt(s, r, i)
  {
    var i := LeadingSpaces(s);
    var t := s[i..];
    var r := t[..|t| - TrailingSpaces(t)];
    assert StrippedAt(s, r, i) by {
      assert s[i..i + |r|] == r;
      var u := s[i + |r|..];
      forall k | 0 <= k < |u|
        ensures IsSpace(u[k])
      {
        assert u[k] == t[|r| + k];
      }
    }
    r
  }

  /** A stripped string is left alone by `strip`. */
  lemma StripKeepsStripped(s: string)
    requires IsStripped(s)
    ensures Strip(s) == s
  {
    assert LeadingSpaces(s) == 0;
    assert s[0..] == s;
    assert TrailingSpaces(s) == 0;
  }

  /** `strip` is idempotent. */
  lemma StripIdempotent(s: string)
    ensures Strip(Strip(s)) == Strip(s)
  {
    StripKeepsStripped(Strip(s));
  }

  /** The result of `strip` is determined by where the surrounding
      whitespace ends: any cut that removes only whitespace and leaves a
      stripped, non-blank remainder is the one `strip` makes. */
  lemma {:induction false} StripUnique(s: string, r: string, i: int)
    requires StrippedAt(s, r, i)
    requires IsStripped(r) && r != []
    ensures Strip(s) == r
  {
    var q := Strip(s);
    var j :| StrippedAt(s, q, j);
    assert s[i] == r[0];
    assert q != [] by {
      assert s[i..i + |r|][0] == s[i];
    }
    assert s[j] == q[0] by {
      assert s[j..j + |q|][0] == s[j];
    }
    // Neither cut can start inside the other's leading whitespace.
    assert i == j;
    var e, f := i + |r|, i + |q|;
    assert s[e - 1] == r[|r| - 1] by {
      assert s[i..e][|r| - 1] == s[e - 1];
    }
    assert s[f - 1] == q[|q| - 1] by {
      assert s[i..f][|q| - 1] == s[f - 1];
    }
    // Nor can either end inside the other's trailing whitespace.
    assert |q| == |r|;
  }
}
