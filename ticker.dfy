/** The normalisation applied to the ticker text box: `upper()` then `strip()`. */
module Ticker {

  /** The characters Python's `str.strip()` removes by default (`str.isspace`). */
  predicate IsSpace(c: char) {
    var n := c as int;
    || 0x09 <= n <= 0x0D || 0x1C <= n <= 0x20
    || n == 0x85 || n == 0xA0 || n == 0x1680
    || 0x2000 <= n <= 0x200A || n == 0x2028 || n == 0x2029
    || n == 0x202F || n == 0x205F || n == 0x3000
  }

  /** `upper()` on one character, for the ASCII letters. */
  function UpperChar(c: char): char {
    if 'a' <= c <= 'z' then (c as int - 32) as char else c
  }

  function Upper(s: string): string {
    seq(|s|, i requires 0 <= i < |s| => UpperChar(s[i]))
  }

  /** Upper-casing keeps the length, maps each ASCII lower-case letter to its capital and leaves
      every other character alone, so no lower-case ASCII letter remains. */
  lemma UpperChars(s: string)
    ensures |Upper(s)| == |s|
    ensures forall k :: 0 <= k < |s| && 'a' <= s[k] <= 'z' ==> Upper(s)[k] as int == s[k] as int - 32
    ensures forall k :: 0 <= k < |s| && !('a' <= s[k] <= 'z') ==> Upper(s)[k] == s[k]
    ensures forall c :: c in Upper(s) ==> !('a' <= c <= 'z')
  {
  }

  /** The number of whitespace characters `lstrip()` removes. */
  function LeadingSpaces(s: string): (n: nat)
    ensures n <= |s|
    ensures forall k :: 0 <= k < n ==> IsSpace(s[k])
    ensures n < |s| ==> !IsSpace(s[n])
  {
    if s != [] && IsSpace(s[0]) then 1 + LeadingSpaces(s[1..]) else 0
  }

  /** The number of whitespace characters `rstrip()` removes. */
  function TrailingSpaces(s: string): (n: nat)
    ensures n <= |s|
    ensures forall k :: |s| - n <= k < |s| ==> IsSpace(s[k])
    ensures n < |s| ==> !IsSpace(s[|s| - n - 1])
  {
    if s != [] && IsSpace(s[|s| - 1]) then 1 + TrailingSpaces(s[..|s| - 1]) else 0
  }

  /** `strip()`: the slice of `s` left after `lstrip()` and then `rstrip()`. */
  function Strip(s: string): (r: string)
    ensures |r| <= |s|
    ensures forall c :: c in r ==> c in s
    ensures r == [] || (!IsSpace(r[0]) && !IsSpace(r[|r| - 1]))
  {
    var front := s[LeadingSpaces(s)..];
    front[..|front| - TrailingSpaces(front)]
  }

  lemma StripIsSlice(s: string)
    ensures LeadingSpaces(s) + |Strip(s)| <= |s|
    ensures Strip(s) == s[LeadingSpaces(s)..LeadingSpaces(s) + |Strip(s)|]
  {
  }

  lemma StripCutsSpaces(s: string)
    ensures forall k :: LeadingSpaces(s) + |Strip(s)| <= k < |s| ==> IsSpace(s[k])
  {
    var i := LeadingSpaces(s);
    var front := s[i..];
    var n := |Strip(s)|;
    forall k | i + n <= k < |s|
      ensures IsSpace(s[k])
    {
      assert s[k] == front[k - i];
    }
  }

  lemma StripEdges(s: string)
    ensures Strip(s) == [] || (!IsSpace(Strip(s)[0]) && !IsSpace(Strip(s)[|Strip(s)| - 1]))
  {
    var front := s[LeadingSpaces(s)..];
    var t := TrailingSpaces(front);
    var r := Strip(s);
    if r != [] {
      assert r[0] == front[0];
      assert r[|r| - 1] == front[|front| - t - 1];
    }
  }

  /** What `strip()` promises: a slice of `s`, everything cut off being whitespace, that
      neither starts nor ends with whitespace. */
  lemma StripSlice(s: string)
    ensures var i, r := LeadingSpaces(s), Strip(s);
      && i + |r| <= |s| && r == s[i..i + |r|]
      && (forall k :: 0 <= k < i ==> IsSpace(s[k]))
      && (forall k :: i + |r| <= k < |s| ==> IsSpace(s[k]))
      && (r == [] || (!IsSpace(r[0]) && !IsSpace(r[|r| - 1])))
  {
    StripIsSlice(s);
    StripCutsSpaces(s);
    StripEdges(s);
  }

  /** `ticker_input.upper().strip()`. */
  function Normalize(s: string): string {
    Strip(Upper(s))
  }

  lemma StripFixed(s: string)
    requires s == [] || (!IsSpace(s[0]) && !IsSpace(s[|s| - 1]))
    ensures Strip(s) == s
  {
    assert LeadingSpaces(s) == 0;
    assert s[0..] == s;
    assert TrailingSpaces(s) == 0;
  }

  lemma UpperFixed(s: string)
    requires forall k :: 0 <= k < |s| ==> UpperChar(s[k]) == s[k]
    ensures Upper(s) == s
  {
  }

  lemma UpperOfNormalized(s: string)
    ensures Upper(Normalize(s)) == Normalize(s)
  {
    var u := Upper(s);
    var n := Strip(u);
    var i := LeadingSpaces(u);
    StripSlice(u);
    forall k | 0 <= k < |n|
      ensures UpperChar(n[k]) == n[k]
    {
      assert n[k] == u[i + k];
    }
    UpperFixed(n);
  }

  /** Normalising a normalised ticker changes nothing, so the stored ticker, shown again in
      the text box, never counts as a change. */
  lemma NormalizeIdempotent(s: string)
    ensures Normalize(Normalize(s)) == Normalize(s)
  {
    var n := Normalize(s);
    UpperOfNormalized(s);
    StripSlice(Upper(s));
    StripFixed(n);
  }

  /** Input made only of whitespace normalises to the empty ticker. */
  lemma NormalizeBlank(s: string)
    requires forall k :: 0 <= k < |s| ==> IsSpace(s[k])
    ensures Normalize(s) == []
  {
    var u := Upper(s);
    assert forall k :: 0 <= k < |u| ==> u[k] == s[k];
    assert LeadingSpaces(u) == |u|;
  }

  /** The default ticker is already in normal form. */
  lemma DefaultTickerNormal()
    ensures Normalize("AAPL") == "AAPL"
  {
    UpperFixed("AAPL");
    StripFixed("AAPL");
  }
}
