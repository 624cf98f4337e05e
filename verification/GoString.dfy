/** Go's conversion of an integer to a string: its UTF-8 encoding, section 3 of RFC 3629. */
module GoString {

  newtype int32 = x: int | -0x8000_0000 <= x < 0x8000_0000

  const REPLACEMENT := 0xFFFD

  predicate IsScalar(x: int) { 0 <= x <= 0x10FFFF && !(0xD800 <= x <= 0xDFFF) }

  /** What is not a Unicode scalar value becomes the replacement character. */
  function Character(x: int32): (c: int)
    ensures IsScalar(c)
  {
    if IsScalar(x as int) then x as int else REPLACEMENT
  }

  function Utf8(c: int): (bytes: seq<int>)
    requires IsScalar(c)
    ensures 1 <= |bytes| <= 4 && forall b :: b in bytes ==> 0 <= b < 0x100
  {
    if c < 0x80 then [c]
    else if c < 0x800 then [0xC0 + c / 0x40, 0x80 + c % 0x40]
    else if c < 0x10000 then [0xE0 + c / 0x1000, 0x80 + c / 0x40 % 0x40, 0x80 + c % 0x40]
    else [0xF0 + c / 0x40000, 0x80 + c / 0x1000 % 0x40, 0x80 + c / 0x40 % 0x40, 0x80 + c % 0x40]
  }

  /** Go's `string(x)`. */
  function FromInt(x: int32): seq<int> { Utf8(Character(x)) }

  function Payload(bytes: seq<int>): int
    requires 1 <= |bytes| <= 4
  {
    if |bytes| == 1 then bytes[0]
    else if |bytes| == 2 then (bytes[0] - 0xC0) * 0x40 + (bytes[1] - 0x80)
    else if |bytes| == 3 then (bytes[0] - 0xE0) * 0x1000 + (bytes[1] - 0x80) * 0x40 + (bytes[2] - 0x80)
    else (bytes[0] - 0xF0) * 0x40000 + (bytes[1] - 0x80) * 0x1000 + (bytes[2] - 0x80) * 0x40 + (bytes[3] - 0x80)
  }

  /** Decoding undoes encoding. */
  lemma Utf8RoundTrip(c: int)
    requires IsScalar(c)
    ensures Payload(Utf8(c)) == c
  {
    assert c == c / 0x40 * 0x40 + c % 0x40;
    assert c / 0x40 == c / 0x40 / 0x40 * 0x40 + c / 0x40 % 0x40;
    assert c / 0x40 / 0x40 == c / 0x1000;
    assert c / 0x1000 == c / 0x1000 / 0x40 * 0x40 + c / 0x1000 % 0x40;
    assert c / 0x1000 / 0x40 == c / 0x40000;
  }

  /** Two integers give the same string exactly if they normalise to the same character. */
  lemma SameString(x: int32, y: int32)
    ensures FromInt(x) == FromInt(y) <==> Character(x) == Character(y)
  {
    Utf8RoundTrip(Character(x));
    Utf8RoundTrip(Character(y));
  }

  /** A string belongs to one integer only exactly if it is that of a scalar value other than the replacement
      character. */
  lemma OnlyString(x: int32)
    ensures (forall y :: FromInt(y) == FromInt(x) ==> y == x) <==> IsScalar(x as int) && x as int != REPLACEMENT
  {
    forall y ensures FromInt(y) == FromInt(x) <==> Character(y) == Character(x) { SameString(y, x); }
    if !(IsScalar(x as int) && x as int != REPLACEMENT) {
      var y: int32 := if x == 0xFFFD then 0xD800 else 0xFFFD;
      assert Character(y) == Character(x) && y != x;
    }
  }
}
