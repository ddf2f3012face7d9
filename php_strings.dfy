/** The part of PHP's string semantics the client relies on. */
module PhpStrings {

  /** PHP strings are byte strings: every character is a byte value. */
  predicate IsByteString(s: string)
  {
    forall i | 0 <= i < |s| :: s[i] as int < 256
  }

  type PhpString = s: string | IsByteString(s)

  predicate StartsWith(s: string, prefix: string)
  {
    prefix <= s
  }

  /** PHP's `empty()` applied to a string: true for "" and for "0" only. */
  predicate IsEmpty(s: PhpString): (r: bool)
    ensures r <==> |s| <= 1 && forall i | 0 <= i < |s| :: s[i] == '0'
  {
    s == "" || s == "0"
  }
}
