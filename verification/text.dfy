/**
  Python's `str.strip()` with no argument: remove, from both ends, every
  character for which `str.isspace()` holds.
 */
module Text {

  /** The characters Python's `str.isspace()` accepts (Unicode White_Space
      plus the ASCII information separators 0x1C-0x1F). */
  predicate IsSpace(c: char) {
    || '\t' <= c <= '\r'
    || '\U{1c}' <= c <= ' '
    || c == '\U{85}'
    || c == '\U{a0}'
    || c == '\U{1680}'
    || '\U{2000}' <= c <= '\U{200a}'
    || c == '\U{2028}'
    || c == '\U{2029}'
    || c == '\U{202f}'
    || c == '\U{205f}'
    || c == '\U{3000}'
  }

  /** Every character of `s` at a position in [lo, hi) is whitespace. */
  predicate SpaceBetween(s: string, lo: int, hi: int)
    requires 0 <= lo <= hi <= |s|
  {
    forall k :: lo <= k < hi ==> IsSpace(s[k])
  }

  predicate AllSpace(s: string) {
    SpaceBetween(s, 0, |s|)
  }

  /** Neither end of `s` is whitespace (vacuously true of the empty string). */
  predicate Trimmed(s: string) {
    s == [] || (!IsSpace(s[0]) && !IsSpace(s[|s| - 1]))
  }

  /** The length of the longest all-whitespace prefix of `s`. */
  function LeadingSpaces(s: string): (n: nat)
    ensures n <= |s| && SpaceBetween(s, 0, n)
    ensures n < |s| ==> !IsSpace(s[n])
  {
    if |s| > 0 && IsSpace(s[0]) then 1 + LeadingSpaces(s[1..]) else 0
  }

  /** The length of the longest all-whitespace suffix of `s`. */
  function TrailingSpaces(s: string): (n: nat)
    ensures n <= |s| && SpaceBetween(s, |s| - n, |s|)
    ensures n < |s| ==> !IsSpace(s[|s| - n - 1])
  {
    if |s| > 0 && IsSpace(s[|s| - 1]) then 1 + TrailingSpaces(s[..|s| - 1]) else 0
  }

  /** `s.strip()`: what is left of `s` once its whitespace prefix and a
      whitespace suffix are removed; it is itself free of whitespace ends,
      and it is empty exactly when `s` is all whitespace. */
  function Strip(s: string): (r: string)
    ensures LeadingSpaces(s) + |r| <= |s|
    ensures r == s[LeadingSpaces(s)..LeadingSpaces(s) + |r|]
    ensures SpaceBetween(s, LeadingSpaces(s) + |r|, |s|)
    ensures Trimmed(r)
    ensures r == [] <==> AllSpace(s)
  {
    var i := LeadingSpaces(s);
    var t := s[i..];
    var j := i + (|t| - TrailingSpaces(t));
    assert SpaceBetween(s, j, |s|) by {
      forall k | j <= k < |s| ensures IsSpace(s[k]) {
        assert s[k] == t[k - i];
      }
    }
    s[i..j]
  }

  /** The whitespace prefix `Strip` removes from `a + t` is exactly `a` when
      `t` does not start with whitespace. */
  lemma LeadingSpacesOf(a: string, t: string)
    requires AllSpace(a) && t != [] && !IsSpace(t[0])
    ensures LeadingSpaces(a + t) == |a|
  {
    var s := a + t;
    assert s[|a|] == t[0];
  }

  lemma TrailingSpacesOf(t: string, b: string)
    requires AllSpace(b) && t != [] && !IsSpace(t[|t| - 1])
    ensures TrailingSpaces(t + b) == |b|
  {
    var s := t + b;
    assert s[|t| - 1] == t[|t| - 1];
  }

  /** Reference characterisation: surrounding a whitespace-free-ended `v`
      with any whitespace and stripping gives back exactly `v`. */
  lemma StripPadded(a: string, v: string, b: string)
    requires AllSpace(a) && AllSpace(b) && Trimmed(v)
    ensures Strip(a + v + b) == v
  {
    var s := a + v + b;
    if v == [] {
      assert AllSpace(s) by {
        forall k | 0 <= k < |s| ensures IsSpace(s[k]) {
          if k < |a| { assert s[k] == a[k]; } else { assert s[k] == b[k - |a|]; }
        }
      }
    } else {
      assert s == a + (v + b);
      LeadingSpacesOf(a, v + b);
      assert s[|a|..] == v + b;
      TrailingSpacesOf(v, b);
      assert s[|a|..|a| + |v|] == v;
    }
  }

  /** Stripping twice is stripping once. */
  lemma StripIdempotent(s: string)
    ensures Strip(Strip(s)) == Strip(s)
  {
    var t := Strip(s);
    assert [] + t + [] == t;
    StripPadded([], t, []);
  }

}
