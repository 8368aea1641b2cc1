/** Python's `str.strip()` with no argument: remove leading and trailing whitespace. */
module PyText {

  /** Python's `str.isspace()` for one character: the ASCII separators and the
      Unicode characters whose category is Zs or whose bidirectional class is
      WS, B or S. */
  predicate IsSpace(c: char) {
    c == ' ' || '\t' <= c <= '\r' || '\U{1c}' <= c <= '\U{1f}'
    || c == '\U{85}' || c == '\U{a0}' || c == '\U{1680}'
    || '\U{2000}' <= c <= '\U{200a}' || c == '\U{2028}' || c == '\U{2029}'
    || c == '\U{202f}' || c == '\U{205f}' || c == '\U{3000}'
  }

  predicate AllSpace(s: string) {
    forall k :: 0 <= k < |s| ==> IsSpace(s[k])
  }

  /** Neither end of `s` is whitespace (the empty string qualifies). */
  predicate Trimmed(s: string) {
    s == [] || (!IsSpace(s[0]) && !IsSpace(s[|s| - 1]))
  }

  /** The length of the whitespace run at the start of `s`. */
  function LeadingSpaces(s: string): (n: nat)
    ensures n <= |s|
    ensures AllSpace(s[..n])
    ensures n < |s| ==> !IsSpace(s[n])
  {
    if s != [] && IsSpace(s[0]) then 1 + LeadingSpaces(s[1..]) else 0
  }

  /** The length of the whitespace run at the end of `s`. */
  function TrailingSpaces(s: string): (n: nat)
    ensures n <= |s|
    ensures AllSpace(s[|s| - n..])
    ensures n < |s| ==> !IsSpace(s[|s| - 1 - n])
  {
    if s != [] && IsSpace(s[|s| - 1]) then 1 + TrailingSpaces(s[..|s| - 1]) else 0
  }

  /** `s.strip()`: what is left once the whitespace at both ends is removed. */
  function Strip(s: string): (t: string)
    ensures |t| <= |s|
    ensures Trimmed(t)
    ensures LeadingSpaces(s) + |t| <= |s|
    ensures t == s[LeadingSpaces(s)..LeadingSpaces(s) + |t|]
    ensures AllSpace(s[LeadingSpaces(s) + |t|..])
  {
    var rest := s[LeadingSpaces(s)..];
    rest[..|rest| - TrailingSpaces(rest)]
  }

  lemma {:induction false} LeadingSpacesAppend(a: string, u: string)
    requires AllSpace(a)
    ensures LeadingSpaces(a + u) == |a| + LeadingSpaces(u)
  {
    if a != [] {
      assert (a + u)[1..] == a[1..] + u;
      LeadingSpacesAppend(a[1..], u);
    } else {
      assert a + u == u;
    }
  }

  lemma {:induction false} TrailingSpacesAppend(u: string, b: string)
    requires AllSpace(b)
    ensures TrailingSpaces(u + b) == TrailingSpaces(u) + |b|
  {
    if b != [] {
      assert (u + b)[..|u + b| - 1] == u + b[..|b| - 1];
      TrailingSpacesAppend(u, b[..|b| - 1]);
    } else {
      assert u + b == u;
    }
  }

  /** Strip is exactly "peel whitespace off both ends": whenever `s` is
      whitespace, then a trimmed core, then whitespace, Strip returns the core. */
  lemma StripExact(a: string, t: string, b: string)
    requires AllSpace(a) && AllSpace(b) && Trimmed(t)
    ensures Strip(a + t + b) == t
  {
    var s := a + t + b;
    assert s == a + (t + b);
    LeadingSpacesAppend(a, t + b);
    var rest := s[LeadingSpaces(s)..];
    if t == [] {
      assert t + b == b;
      assert LeadingSpaces(b) == |b|;
      assert rest == [];
    } else {
      assert (t + b)[0] == t[0];
      assert LeadingSpaces(t + b) == 0;
      assert rest == t + b;
      TrailingSpacesAppend(t, b);
      assert TrailingSpaces(t) == 0;
      assert rest[..|rest| - TrailingSpaces(rest)] == t;
    }
  }

  /** Stripping twice is stripping once. */
  lemma StripIdempotent(s: string)
    ensures Strip(Strip(s)) == Strip(s)
  {
    var t := Strip(s);
    assert [] + t + [] == t;
    StripExact([], t, []);
  }

  /** A string made only of whitespace strips to the empty string. */
  lemma StripAllSpace(s: string)
    requires AllSpace(s)
    ensures Strip(s) == []
  {
    assert s + [] + [] == s;
    StripExact(s, [], []);
  }

  /** Strip removes whitespace only: every non-whitespace character of `s`
      survives, in place, inside the result. */
  lemma StripKeepsContent(s: string, k: nat)
    requires k < |s| && !IsSpace(s[k])
    ensures LeadingSpaces(s) <= k < LeadingSpaces(s) + |Strip(s)|
    ensures Strip(s)[k - LeadingSpaces(s)] == s[k]
  {
  }
}
