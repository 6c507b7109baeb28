/** Fields of a JSON request body as the express-validator chains see them. */
module RequestBody {
  import opened Wrappers

  /** A body field that a validator reads as a number: absent, present but not a number
      of the kind asked for, or a number (prices in cents). */
  datatype Param = Missing | Malformed | Given(n: int)

  /** The not-empty check: the field is present and not the empty string. */
  predicate NotEmpty(s: Option<string>) {
    s.Some? && s.value != ""
  }

  /** The numeric check: the field is present and parses as a number. */
  predicate IsNumeric(p: Param) {
    p.Given?
  }

  /** The integer check with a lower bound: an integer that is at least `m`. */
  predicate IsIntAtLeast(p: Param, m: int) {
    p.Given? && p.n >= m
  }

  /** An optional not-empty check: only an absent field skips it. */
  predicate OptionalNotEmpty(s: Option<string>) {
    s.None? || s.value != ""
  }

  /** An optional numeric check: only an absent field skips it. */
  predicate OptionalNumeric(p: Param) {
    p.Missing? || p.Given?
  }

  /** The entry one check adds to the error array: its field when it fails, nothing when
      it passes. */
  function Report(passes: bool, field: string): (r: seq<string>)
    ensures field in r <==> !passes
    ensures r == [] <==> passes
    ensures forall f :: f in r ==> f == field
  {
    if passes then [] else [field]
  }

  /** An optional bounded integer check: only an absent field skips it. */
  predicate OptionalIntAtLeast(p: Param, m: int) {
    p.Missing? || (p.Given? && p.n >= m)
  }
}
