/** The .NET string operations the core relies on, over `seq<char>`. */
module Text {
  import opened Wrappers

  /** `Char.IsWhiteSpace`: the characters Unicode classes as White_Space. */
  predicate IsWhiteSpace(c: char) {
    c == ' ' || '\t' <= c <= '\r' || c == '\U{0085}' || c == '\U{00A0}' || c == '\U{1680}'
    || '\U{2000}' <= c <= '\U{200A}' || c == '\U{2028}' || c == '\U{2029}'
    || c == '\U{202F}' || c == '\U{205F}' || c == '\U{3000}'
  }

  /** `string.IsNullOrWhiteSpace`. */
  predicate IsNullOrWhiteSpace(s: Option<string>) {
    s.None? || forall i :: 0 <= i < |s.value| ==> IsWhiteSpace(s.value[i])
  }

  /** `string.IsNullOrEmpty`. */
  predicate IsNullOrEmpty(s: Option<string>) {
    s.None? || s.value == ""
  }

  /** `s.StartsWith(prefix)`, compared ordinally. */
  predicate StartsWith(s: string, prefix: string) {
    prefix <= s
  }

  /** The upper-case folding `StringComparer.OrdinalIgnoreCase` applies, for ASCII letters. */
  function ToUpperOrdinal(c: char): (u: char)
    ensures 'a' <= c <= 'z' ==> 'A' <= u <= 'Z' && u as int == c as int - 32
    ensures !('a' <= c <= 'z') ==> u == c
  {
    if 'a' <= c <= 'z' then (c as int - 32) as char else c
  }

  /** `StringComparer.OrdinalIgnoreCase.Equals(a, b)` on two non-null strings. */
  predicate EqualsIgnoreCase(a: string, b: string) {
    |a| == |b| && forall i :: 0 <= i < |a| ==> ToUpperOrdinal(a[i]) == ToUpperOrdinal(b[i])
  }

  /** `xs.Contains(x, StringComparer.OrdinalIgnoreCase)`: the front-to-back walk LINQ performs. */
  function ContainsIgnoreCase(xs: seq<string>, x: string): bool {
    if xs == [] then false
    else EqualsIgnoreCase(xs[0], x) || ContainsIgnoreCase(xs[1..], x)
  }

  /** The walk finds `x` exactly when some element equals it ignoring case. */
  lemma {:induction false} ContainsIgnoreCaseIff(xs: seq<string>, x: string)
    ensures ContainsIgnoreCase(xs, x) <==> exists i :: 0 <= i < |xs| && EqualsIgnoreCase(xs[i], x)
  {
    if xs != [] {
      ContainsIgnoreCaseIff(xs[1..], x);
      if ContainsIgnoreCase(xs[1..], x) {
        var i :| 0 <= i < |xs[1..]| && EqualsIgnoreCase(xs[1..][i], x);
        assert EqualsIgnoreCase(xs[i + 1], x);
      }
      if exists i :: 0 <= i < |xs| && EqualsIgnoreCase(xs[i], x) {
        var i :| 0 <= i < |xs| && EqualsIgnoreCase(xs[i], x);
        if i > 0 {
          assert EqualsIgnoreCase(xs[1..][i - 1], x);
        }
      }
    }
  }

  /** Comparing ignoring case is an equivalence: reflexive, symmetric and transitive. */
  lemma EqualsIgnoreCaseEquivalence(a: string, b: string, c: string)
    ensures EqualsIgnoreCase(a, a)
    ensures EqualsIgnoreCase(a, b) <==> EqualsIgnoreCase(b, a)
    ensures EqualsIgnoreCase(a, b) && EqualsIgnoreCase(b, c) ==> EqualsIgnoreCase(a, c)
  {
  }

  /** Whether the walk finds a key depends only on the key's case-folded form. */
  lemma {:induction false} ContainsIgnoreCaseRespectsCase(xs: seq<string>, x: string, y: string)
    requires EqualsIgnoreCase(x, y)
    ensures ContainsIgnoreCase(xs, x) == ContainsIgnoreCase(xs, y)
  {
    if xs != [] {
      EqualsIgnoreCaseEquivalence(xs[0], x, y);
      EqualsIgnoreCaseEquivalence(xs[0], y, x);
      EqualsIgnoreCaseEquivalence(x, y, x);
      ContainsIgnoreCaseRespectsCase(xs[1..], x, y);
    }
  }
}
