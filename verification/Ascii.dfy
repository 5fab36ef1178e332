/** Names compared with the case of ASCII letters aside. */
module Ascii {

  function LowerChar(c: char): char {
    if 'A' <= c <= 'Z' then c + ('a' - 'A') else c
  }

  function Lower(s: string): string {
    seq(|s|, i requires 0 <= i < |s| => LowerChar(s[i]))
  }

  /** `upper` is a capital letter and `lower` its small form. */
  predicate CaseOf(upper: char, lower: char) {
    'A' <= upper <= 'Z' && lower as int == upper as int + 32
  }

  /** Letter by letter the same, or the two cases of one letter. */
  predicate SameLetters(a: string, b: string) {
    |a| == |b| && forall i :: 0 <= i < |a| ==> a[i] == b[i] || CaseOf(a[i], b[i]) || CaseOf(b[i], a[i])
  }

  lemma SameLowerExactly(a: string, b: string)
    ensures Lower(a) == Lower(b) <==> SameLetters(a, b)
  {
    if Lower(a) == Lower(b) {
      assert |a| == |Lower(a)| == |b|;
      forall i | 0 <= i < |a| ensures a[i] == b[i] || CaseOf(a[i], b[i]) || CaseOf(b[i], a[i]) {
        assert Lower(a)[i] == Lower(b)[i];
      }
    }
  }
}
