/** The string trimming used by the message rules: JavaScript's
    `String.prototype.trim`, which strips white space and line terminators
    from both ends of a string and leaves the inside untouched. */
module Text {

  /** The code points ECMAScript classes as WhiteSpace or LineTerminator:
      TAB, VT, FF, SPACE, NBSP, ZWNBSP, the Unicode "Zs" space separators,
      LF, CR, LINE SEPARATOR and PARAGRAPH SEPARATOR. All of them lie in the
      Basic Multilingual Plane, so trimming code points and trimming UTF-16
      code units agree. */
  predicate IsWhitespace(c: char)
  {
    || c == '\t' || c == '\U{000B}' || c == '\U{000C}' || c == ' '
    || c == '\U{00A0}' || c == '\U{FEFF}' || c == '\U{1680}'
    || ('\U{2000}' <= c <= '\U{200A}')
    || c == '\U{202F}' || c == '\U{205F}' || c == '\U{3000}'
    || c == '\n' || c == '\r' || c == '\U{2028}' || c == '\U{2029}'
  }

  /** Every character of `s` is white space (the empty string included). */
  predicate AllWhitespace(s: string)
  {
    forall i :: 0 <= i < |s| ==> IsWhitespace(s[i])
  }

  /** Neither end of `s` is white space: trimming has nothing left to do. */
  predicate Trimmed(s: string)
  {
    |s| == 0 || (!IsWhitespace(s[0]) && !IsWhitespace(s[|s| - 1]))
  }

  /** How many white-space characters `s` starts with. */
  function LeadingSpace(s: string): (n: nat)
    ensures n <= |s|
    ensures forall i :: 0 <= i < n ==> IsWhitespace(s[i])
    ensures n < |s| ==> !IsWhitespace(s[n])
  {
    if |s| > 0 && IsWhitespace(s[0]) then 1 + LeadingSpace(s[1..]) else 0
  }

  /** How many white-space characters `s` ends with. */
  function TrailingSpace(s: string): (n: nat)
    ensures n <= |s|
    ensures forall i :: |s| - n <= i < |s| ==> IsWhitespace(s[i])
    ensures n < |s| ==> !IsWhitespace(s[|s| - n - 1])
  {
    if |s| > 0 && IsWhitespace(s[|s| - 1]) then 1 + TrailingSpace(s[..|s| - 1]) else 0
  }

  /** `String.prototype.trim`: drops the leading and the trailing white
      space. The result has no white space at either end, and it is empty
      exactly when the input was blank. */
  function Trim(s: string): (r: string)
    ensures Trimmed(r)
    ensures |r| <= |s|
    ensures r == [] <==> AllWhitespace(s)
  {
    var lo := LeadingSpace(s);
    if lo == |s| then
      []
    else
      var hi := |s| - TrailingSpace(s);
      assert lo < hi;
      s[lo..hi]
  }

  /** Trim is characterised by its result: whenever `s` is a trimmed string
      `t` wrapped in white space on both sides, trimming `s` gives `t`. */
  lemma TrimOfPadded(a: string, t: string, b: string)
    requires AllWhitespace(a) && AllWhitespace(b)
    requires Trimmed(t)
    ensures Trim(a + t + b) == t
  {
    var s := a + t + b;
    if t == [] {
      assert AllWhitespace(s) by {
        forall i | 0 <= i < |s|
          ensures IsWhitespace(s[i])
        {
          if i < |a| { assert s[i] == a[i]; } else { assert s[i] == b[i - |a|]; }
        }
      }
    } else {
      assert s[|a|] == t[0];
      assert s[|a| + |t| - 1] == t[|t| - 1];
      var lo := LeadingSpace(s);
      assert lo == |a|;
      var n := TrailingSpace(s);
      assert n == |b|;
      assert s[|a|..|a| + |t|] == t;
    }
  }

  /** The trimmed text of a non-blank string is the slice between its
      leading and its trailing white space. */
  lemma TrimIsInnerSlice(s: string)
    requires !AllWhitespace(s)
    ensures LeadingSpace(s) <= |s| - TrailingSpace(s)
    ensures AllWhitespace(s[..LeadingSpace(s)]) && AllWhitespace(s[|s| - TrailingSpace(s)..])
    ensures Trim(s) == s[LeadingSpace(s)..|s| - TrailingSpace(s)]
  {
    var lo, n := LeadingSpace(s), TrailingSpace(s);
    assert lo < |s| by {
      var k :| 0 <= k < |s| && !IsWhitespace(s[k]);
    }
    var pre, post := s[..lo], s[|s| - n..];
    forall i | 0 <= i < |pre|
      ensures IsWhitespace(pre[i])
    {
      assert pre[i] == s[i];
    }
    forall i | 0 <= i < |post|
      ensures IsWhitespace(post[i])
    {
      assert post[i] == s[|s| - n + i];
    }
  }

  /** Trimming twice is trimming once. */
  lemma TrimIdempotent(s: string)
    ensures Trim(Trim(s)) == Trim(s)
  {
    var t := Trim(s);
    assert [] + t + [] == t;
    TrimOfPadded([], t, []);
  }

  /** A trimmed string is a fixed point of Trim, and only trimmed strings
      are. */
  lemma TrimFixedPoint(s: string)
    ensures Trim(s) == s <==> Trimmed(s)
  {
    if Trimmed(s) {
      assert [] + s + [] == s;
      TrimOfPadded([], s, []);
    }
  }

  /** The index-walking form of trim: `lo` skips the leading white space,
      `hi` backs over the trailing white space, and the slice between them
      is exactly `Trim(s)`. */
  method TrimBounds(s: string) returns (lo: nat, hi: nat)
    ensures lo <= hi <= |s|
    ensures AllWhitespace(s[..lo]) && AllWhitespace(s[hi..])
    ensures Trimmed(s[lo..hi])
    ensures s[lo..hi] == Trim(s)
  {
    lo := 0;
    while lo < |s| && IsWhitespace(s[lo])
      invariant lo <= |s|
      invariant AllWhitespace(s[..lo])
    {
      assert s[..lo + 1] == s[..lo] + [s[lo]];
      lo := lo + 1;
    }
    hi := |s|;
    while hi > lo && IsWhitespace(s[hi - 1])
      invariant lo <= hi <= |s|
      invariant AllWhitespace(s[hi..])
    {
      assert s[hi - 1..] == [s[hi - 1]] + s[hi..];
      hi := hi - 1;
    }
    assert s == s[..lo] + s[lo..hi] + s[hi..];
    TrimOfPadded(s[..lo], s[lo..hi], s[hi..]);
  }
}
