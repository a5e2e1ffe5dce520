/** Bytes as numbers. */
module Octets {

  function ByteOf(n: nat): bv8
    requires n < 256
  {
    n as bv8
  }

  function ByteValue(b: bv8): (n: nat)
    ensures n < 256
  {
    b as int
  }

  lemma ByteValueRoundTrip(b: bv8)
    ensures ByteOf(ByteValue(b)) == b
  {
  }

  /** The n-th byte, counted up from zero. */
  function Nth(n: nat): bv8
    requires n < 256
  {
    if n == 0 then 0 else Nth(n - 1) + 1
  }

  lemma NextByte(b: bv8)
    ensures ByteValue(0) == 0
    ensures if b == 0xff then ByteValue(b) == 255 else ByteValue(b + 1) == ByteValue(b) + 1
  {
  }

  lemma {:induction false} NthIs(n: nat)
    requires n < 256
    ensures ByteValue(Nth(n)) == n
  {
    hide ByteValue;
    if n == 0 {
      NextByte(0);
    } else {
      NthIs(n - 1);
      NextByte(Nth(n - 1));
    }
  }

  lemma ByteRoundTrip(n: nat)
    requires n < 256
    ensures ByteValue(ByteOf(n)) == n
  {
    hide *;
    NthIs(n);
    ByteValueRoundTrip(Nth(n));
  }
}
