/**
 A sealed predicate is one told as a value: lemmas and methods hand the value on, and only a lemma that mentions
 Opened looks behind it.
 */
module Seals {
  datatype Standing = Firm | Shaken

  ghost predicate Opened(t: bool) { true }
}
