/** Case-insensitive text comparison, restricted to the ASCII letters: two
    strings are equal ignoring case when their lower-case folds agree. */
module CaseFold {

  function ToLowerAscii(c: char): (r: char)
    ensures !('A' <= r <= 'Z')
    ensures 'a' <= r <= 'z' <==> ('a' <= c <= 'z' || 'A' <= c <= 'Z')
  {
    if 'A' <= c <= 'Z' then (c as int - 'A' as int + 'a' as int) as char else c
  }

  function Fold(s: string): (r: string)
    ensures |r| == |s|
  {
    seq(|s|, i requires 0 <= i < |s| => ToLowerAscii(s[i]))
  }

  /** Two characters that are equal, or are the upper- and lower-case forms
      of one ASCII letter. */
  predicate SameUpToCase(x: char, y: char)
  {
    || x == y
    || ('A' <= x <= 'Z' && y as int == x as int + 32)
    || ('A' <= y <= 'Z' && x as int == y as int + 32)
  }

  lemma ToLowerAsciiAgrees(x: char, y: char)
    ensures ToLowerAscii(x) == ToLowerAscii(y) <==> SameUpToCase(x, y)
  {
  }

  lemma FoldsAgree(a: string, b: string)
    ensures Fold(a) == Fold(b) <==>
      |a| == |b| && forall i :: 0 <= i < |a| ==> SameUpToCase(a[i], b[i])
  {
    if Fold(a) == Fold(b) {
      forall i | 0 <= i < |a| ensures SameUpToCase(a[i], b[i]) {
        assert Fold(a)[i] == Fold(b)[i];
        ToLowerAsciiAgrees(a[i], b[i]);
      }
    }
    if |a| == |b| && forall i :: 0 <= i < |a| ==> SameUpToCase(a[i], b[i]) {
      forall i | 0 <= i < |a| ensures Fold(a)[i] == Fold(b)[i] {
        ToLowerAsciiAgrees(a[i], b[i]);
      }
    }
  }

  /** The ASCII approximation of `StringComparison.InvariantCultureIgnoreCase`
      equality: same length, and each pair of characters differs at most in
      the case of an ASCII letter. */
  predicate EqualsIgnoreCase(a: string, b: string)
    ensures EqualsIgnoreCase(a, b) <==>
      |a| == |b| && forall i :: 0 <= i < |a| ==> SameUpToCase(a[i], b[i])
  {
    FoldsAgree(a, b);
    Fold(a) == Fold(b)
  }

  /** Case-insensitive equality is an equivalence relation. */
  lemma EqualsIgnoreCaseIsEquivalence(a: string, b: string, c: string)
    ensures EqualsIgnoreCase(a, a)
    ensures EqualsIgnoreCase(a, b) ==> EqualsIgnoreCase(b, a)
    ensures EqualsIgnoreCase(a, b) && EqualsIgnoreCase(b, c) ==> EqualsIgnoreCase(a, c)
  {
  }
}
