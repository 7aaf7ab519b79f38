/**
 * The colour value of the cannon game (laba6/deob.py, class Color): three
 * channels packed into one integer with 16^4 and 16^2 as place values, and
 * the unpacking with floor division and modulo.
 */
module Colors {

  const HexR: int := 65536  // 16 ** 4
  const HexG: int := 256    // 16 ** 2

  datatype Color = Color(r: int, g: int, b: int)

  /** Color.value: the packed integer. */
  function Value(c: Color): int
  {
    c.r * HexR + c.g * HexG + c.b
  }

  /**
   * Color.from_hex. Python's // and % floor towards minus infinity; for the
   * positive divisors used here that agrees with Dafny's Euclidean / and %.
   */
  function FromHex(value: int): (c: Color)
    ensures 0 <= c.g < 256 && 0 <= c.b < 256
    ensures value >= 0 ==> c.r >= 0
  {
    var r := value / HexR;
    var rest := value % HexR;
    Color(r, rest / HexG, rest % HexG)
  }

  /** Unpacking a packed colour gives the channels back when g and b are bytes. */
  lemma FromHexValue(c: Color)
    requires 0 <= c.g < 256 && 0 <= c.b < 256
    ensures FromHex(Value(c)) == c
  {
    var low := c.g * HexG + c.b;
    assert 0 <= low < HexR;
    assert Value(c) == c.r * HexR + low;
    DivModUnique(Value(c), HexR, c.r, low);
    DivModUnique(low, HexG, c.g, c.b);
  }

  /** Packing an unpacked value gives the value back, for every integer. */
  lemma ValueFromHex(value: int)
    ensures Value(FromHex(value)) == value
  {
    var rest := value % HexR;
    assert value == (value / HexR) * HexR + rest;
    assert rest == (rest / HexG) * HexG + rest % HexG;
  }

  /** Division by a positive constant is determined by quotient and remainder. */
  lemma DivModUnique(n: int, d: int, q: int, m: int)
    requires d > 0 && 0 <= m < d && n == q * d + m
    ensures n / d == q && n % d == m
  {
    var q', m' := n / d, n % d;
    assert (q' - q) * d == m - m' by {
      assert q' * d + m' == q * d + m;
      MulSub(q', q, d);
    }
    if q' != q {
      var k := if q' > q then q' - q else q - q';
      MulAtLeast(k, d);
      assert false;
    }
  }

  lemma MulSub(a: int, b: int, d: int)
    ensures (a - b) * d == a * d - b * d
  {
  }

  /** A positive multiple of d is at least d. */
  lemma MulAtLeast(k: int, d: int)
    requires k >= 1 && d > 0
    ensures k * d >= d
  {
    assert k * d == (k - 1) * d + d;
    assert (k - 1) * d >= 0;
  }

  const Black: Color := Color(0, 0, 0)
  const White: Color := Color(255, 255, 255)
  const Gray: Color := FromHex(0x7D7D7D)
  const LightGray: Color := FromHex(0xADADAD)
  const Red: Color := FromHex(0xFF0000)
  const Blue: Color := FromHex(0x0000FF)
  /** The fixed colour of a FlyingBall, Color(40, 147, 255). */
  const SkyBlue: Color := Color(40, 147, 255)
}
