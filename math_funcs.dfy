/** Nibble and byte extractors on a 16-bit instruction word (`mathFuncs.go`).
    A word is read as four hexadecimal digits d0 d1 d2 d3, most significant first.
    Go's `uint16` and `byte` are the integers below 0x10000 and 0x100. On such unsigned
    values a right shift by k bits is division by 2^k and a mask of the low k bits is the
    remainder modulo 2^k, which is how the shifts and masks are written here. */
module MathFuncs {

  /** Go's `byte`. */
  type Uint8 = x: int | 0 <= x < 0x100
  /** Go's `uint16`. */
  type Uint16 = x: int | 0 <= x < 0x1_0000

  /** The top nibble d0: `w >> 12`. */
  function FirstDigit(w: Uint16): (r: Uint16)
    ensures r < 0x10
  {
    w / 0x1000
  }

  /** The top byte d0 d1: `w >> 8`. */
  function First2Digits(w: Uint16): (r: Uint16)
    ensures r < 0x100
  {
    w / 0x100
  }

  /** The low twelve bits d1 d2 d3: `w & 0x0fff`. */
  function Last3Digits(w: Uint16): (r: Uint16)
    ensures r < 0x1000
  {
    w % 0x1000
  }

  /** The low byte d2 d3: `w & 0x00ff`. */
  function Last2Digits(w: Uint16): (r: Uint16)
    ensures r < 0x100
  {
    w % 0x100
  }

  /** The second nibble d1: `(w & 0x0f00) >> 8`. The mask keeps bits 8 to 11, that is the
      low twelve bits without their low byte, and the shift drops that low byte. */
  function SecondDigit(w: Uint16): (r: Uint16)
    ensures r < 0x10
  {
    (w % 0x1000) / 0x100
  }

  /** The second nibble is the low nibble of the top byte. */
  lemma SecondDigitOfFirst2Digits(w: Uint16)
    ensures SecondDigit(w) == First2Digits(w) % 0x10
  {
    var q, r := w / 0x100, w % 0x100;
    assert w == q * 0x100 + r;
    assert w % 0x1000 == (q % 0x10) * 0x100 + r by {
      assert w == (q / 0x10) * 0x1000 + ((q % 0x10) * 0x100 + r);
    }
  }

  /** The top nibble and the low twelve bits together are the word. */
  lemma FirstDigitLast3Digits(w: Uint16)
    ensures FirstDigit(w) * 0x1000 + Last3Digits(w) == w
  {
  }

  /** The top byte and the low byte together are the word. */
  lemma First2DigitsLast2Digits(w: Uint16)
    ensures First2Digits(w) * 0x100 + Last2Digits(w) == w
  {
  }

  /** The top nibble, the second nibble and the low byte together are the word. */
  lemma WordFromDigits(w: Uint16)
    ensures FirstDigit(w) * 0x1000 + SecondDigit(w) * 0x100 + Last2Digits(w) == w
  {
    SecondDigitOfFirst2Digits(w);
  }

  /** Go's `uint16` addition: the sum wraps around modulo 2^16. */
  function Add16(a: Uint16, b: Uint16): (r: Uint16)
    ensures a + b < 0x1_0000 ==> r == a + b
    ensures a + b >= 0x1_0000 ==> r == a + b - 0x1_0000
  {
    (a + b) % 0x1_0000
  }
}
