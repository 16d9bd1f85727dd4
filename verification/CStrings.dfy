/** NUL-terminated strings. */
module CStrings {
  const NUL: char := '\0'

  /** Text that a C string can hold. */
  predicate Text(s: string) {
    NUL !in s
  }

  /** The C string at the start of `s`. */
  function CString(s: string): (r: string)
    ensures r <= s && Text(r) && (|r| < |s| ==> s[|r|] == NUL)
  {
    if s == [] || s[0] == NUL then [] else [s[0]] + CString(s[1..])
  }

  lemma {:induction false} CStringIs(s: string, t: string)
    requires t <= s && Text(t) && (|t| < |s| ==> s[|t|] == NUL)
    ensures CString(s) == t
  {
    if t != [] {
      assert t[0] in t;
      assert s[0] == t[0];
      forall c | c in t[1..] ensures c != NUL {
        assert c in t;
      }
      CStringIs(s[1..], t[1..]);
      assert t == [t[0]] + t[1..];
    }
  }
}
