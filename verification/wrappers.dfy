/** An optional value, standing for Python's `None` where a result may be absent. */
module Wrappers {

  datatype Option<+T> = None | Some(value: T)

  function Min(a: int, b: int): int { if a <= b then a else b }

  function Max(a: int, b: int): int { if a >= b then a else b }
}

/** The string tests of the Python program: `str.startswith`, substring `in` and the `\d` character class. */
module Strings {

  /** `s.startswith(prefix)`. */
  predicate StartsWith(s: string, prefix: string) {
    |prefix| <= |s| && s[..|prefix|] == prefix
  }

  /** `sub` occurs in `s` starting at index `i`. */
  predicate OccursAt(sub: string, s: string, i: int) {
    0 <= i <= |s| - |sub| && s[i..i + |sub|] == sub
  }

  /** `sub in s` on two strings. */
  predicate IsSubstring(sub: string, s: string) {
    exists i | 0 <= i <= |s| - |sub| :: OccursAt(sub, s, i)
  }

  /** An occurrence inside an occurrence is an occurrence. */
  lemma OccursWithin(sub: string, big: string, s: string, k: int, j: int)
    requires OccursAt(big, s, k) && OccursAt(sub, big, j)
    ensures OccursAt(sub, s, k + j)
  {
    forall t | 0 <= t < |sub|
      ensures s[k + j + t] == sub[t]
    {
      assert s[k..k + |big|][j + t] == big[j..j + |sub|][t];
    }
    assert s[k + j..k + j + |sub|] == sub;
  }

  /** An ASCII decimal digit (the model's reading of the regular expression class `\d`). */
  predicate IsDigit(c: char) {
    '0' <= c <= '9'
  }

  predicate AllDigits(s: string) {
    forall i :: 0 <= i < |s| ==> IsDigit(s[i])
  }

  /** A character of `string.ascii_letters + string.digits`. */
  predicate IsAsciiAlnum(c: char) {
    ('a' <= c <= 'z') || ('A' <= c <= 'Z') || IsDigit(c)
  }

}
