/** The two PCRE character classes the status-line pattern uses.

    The pattern is compiled without the `u` modifier and with the default
    ("C" locale) character tables, so both classes are ASCII-only:
    `\w` is letters, digits and underscore, and `\s` is space, horizontal
    tab, line feed, vertical tab, form feed and carriage return. */
module CharClasses {

  /** PCRE `\w`. */
  predicate IsWord(c: char) {
    ('a' <= c <= 'z') || ('A' <= c <= 'Z') || ('0' <= c <= '9') || c == '_'
  }

  /** PCRE `\s`. */
  predicate IsSpace(c: char) {
    c == ' ' || c == '\t' || c == '\n' || c == '\U{0B}' || c == '\U{0C}' || c == '\r'
  }

  /** Every character of `s` is in `[\w\s]`. */
  predicate AllWordOrSpace(s: string) {
    forall i :: 0 <= i < |s| ==> IsWord(s[i]) || IsSpace(s[i])
  }

  /** Every character of `s` is in `\w`. */
  predicate AllWord(s: string) {
    forall i :: 0 <= i < |s| ==> IsWord(s[i])
  }

  /** Every character of `s` is in `\s`. */
  predicate AllSpace(s: string) {
    forall i :: 0 <= i < |s| ==> IsSpace(s[i])
  }

  /** No character of `s` is in `\s`. */
  predicate NoSpace(s: string) {
    forall i :: 0 <= i < |s| ==> !IsSpace(s[i])
  }

  lemma WordIsNotSpace(c: char)
    requires IsWord(c)
    ensures !IsSpace(c) && c != ':'
  {
  }
}
