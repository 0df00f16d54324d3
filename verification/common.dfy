/** Values shared by the three authentication forms: an optional value and
    the character classes the schemas and input adapters test. */
module Common {

  datatype Option<+T> = None | Some(value: T)

  /** The class `\d` of a JavaScript regular expression without the `u` flag. */
  predicate IsDigit(c: char)
  {
    '0' <= c <= '9'
  }

  predicate AllDigits(s: string)
  {
    forall i | 0 <= i < |s| :: IsDigit(s[i])
  }

  /** A domain part with a dot that is neither its first nor its last character. */
  predicate HasInnerDot(domain: string)
  {
    exists k | 0 < k < |domain| - 1 :: domain[k] == '.'
  }

  /** Stand-in for the schema library's e-mail format check: exactly one `@`,
      with a non-empty local part before it and a dotted domain after it. */
  predicate IsEmail(s: string)
  {
    exists at | 0 < at < |s| ::
      s[at] == '@' && '@' !in s[..at] && '@' !in s[at + 1..] && HasInnerDot(s[at + 1..])
  }
}
