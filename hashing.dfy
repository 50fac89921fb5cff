/**
 * PHP `hash('sha256', $s)`. The digest algorithm itself (FIPS 180-4) is not
 * modelled: a hash function is any function whose every output has the shape
 * of a SHA-256 digest in hexadecimal, 64 lowercase hex digits.
 */
module Hashing {
  import opened PhpStrings

  predicate IsLowerHexDigit(c: char) {
    '0' <= c <= '9' || 'a' <= c <= 'f'
  }

  predicate IsSha256Hex(d: string) {
    |d| == 64 && forall i :: 0 <= i < |d| ==> IsLowerHexDigit(d[i])
  }

  type Sha256 = h: string -> string | forall s :: IsSha256Hex(h(s))
    witness (s: string) => seq(64, _ => '0')

  /**
   * A hex digest contains neither whitespace nor NUL, so `trim()` leaves it
   * alone, and `ctype_xdigit()` accepts it.
   */
  lemma DigestShape(d: string)
    requires IsSha256Hex(d)
    ensures Trim(d) == d
    ensures CtypeXdigit(d)
  {
    TrimmedIsFixed(d);
  }
}
