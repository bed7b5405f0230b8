/** Fixed-width integers of the AVR target (ATtiny1616) and the C/Arduino
    integer operators the firmware relies on, written out over Dafny's
    unbounded integers. */
module Ints {

  type u8 = x: int | 0 <= x < 0x100
  type u16 = x: int | 0 <= x < 0x1_0000
  type u32 = x: int | 0 <= x < 0x1_0000_0000

  /** Conversion to uint8_t: the value modulo 2^8. */
  function ToU8(x: int): (r: u8)
    ensures (x - r) % 0x100 == 0
    ensures 0 <= x < 0x100 ==> r == x
  {
    x % 0x100
  }

  /** Conversion to uint16_t: the value modulo 2^16. */
  function ToU16(x: int): (r: u16)
    ensures (x - r) % 0x1_0000 == 0
    ensures 0 <= x < 0x1_0000 ==> r == x
  {
    x % 0x1_0000
  }

  /** Conversion to uint32_t (unsigned long on AVR): the value modulo 2^32. */
  function ToU32(x: int): (r: u32)
    ensures (x - r) % 0x1_0000_0000 == 0
    ensures 0 <= x < 0x1_0000_0000 ==> r == x
  {
    x % 0x1_0000_0000
  }

  function Abs(x: int): nat { if x < 0 then -x else x }

  /** C integer division, which truncates toward zero (Dafny's `/` is Euclidean). */
  function CDiv(a: int, b: int): (q: int)
    requires b != 0
    ensures Abs(q) == Abs(a) / Abs(b)
    ensures (a >= 0) == (b > 0) ==> q >= 0
    ensures (a >= 0) != (b > 0) ==> q <= 0
    ensures 0 <= a && 0 < b ==> q == a / b
  {
    DivMono(0, Abs(a), Abs(b));
    var m := Abs(a) / Abs(b);
    if (a >= 0) == (b > 0) then m else -m
  }

  /** Arduino's `map`: rescales x from [inMin, inMax] to [outMin, outMax]
      with the core's formula in `long` arithmetic. Every call site in the
      firmware has 8-bit arguments, so the 32-bit product cannot overflow. */
  function ArduinoMap(x: int, inMin: int, inMax: int, outMin: int, outMax: int): (r: int)
    requires inMax != inMin
    ensures x == inMin ==> r == outMin
    ensures x == inMax ==> r == outMax
  {
    var d, e := inMax - inMin, outMax - outMin;
    var p := (x - inMin) * e;
    assert x == inMin ==> p == 0;
    assert x == inMax ==> p == d * e;
    CDivExact(d, e);
    CDiv(p, d) + outMin
  }

  /** Truncating division undoes a multiplication exactly, whatever the signs. */
  lemma CDivExact(d: int, e: int)
    requires d != 0
    ensures CDiv(d * e, d) == e
  {
    var a := d * e;
    assert Abs(a) == Abs(d) * Abs(e) by {
      if d < 0 && e < 0 {
        assert a == (-d) * (-e);
      } else if d < 0 {
        assert -a == (-d) * e;
      } else if e < 0 {
        assert -a == d * (-e);
      }
    }
    DivModUnique(Abs(a), Abs(d), Abs(e), 0);
  }

  lemma MulMono(a: int, b: int, c: int)
    requires 0 <= a <= b && 0 <= c
    ensures 0 <= a * c <= b * c
  {
  }

  lemma DivMono(a: int, b: int, c: int)
    requires 0 <= a <= b && 0 < c
    ensures 0 <= a / c <= b / c
  {
    var qa, ra := a / c, a % c;
    var t, u := (ra + (b - a)) / c, (ra + (b - a)) % c;
    assert (qa + t) * c == qa * c + t * c;
    DivModUnique(b, c, qa + t, u);
  }

  /** a < k * c implies a / c < k. */
  lemma DivBelow(a: int, k: int, c: int)
    requires 0 <= a < k * c && 0 < c
    ensures a / c < k
  {
  }

  /** Division is determined by quotient and remainder: x = q * c + r with
      0 <= r < c gives x / c == q and x % c == r. */
  lemma DivModUnique(x: int, c: int, q: int, r: int)
    requires 0 < c && 0 <= r < c && x == q * c + r
    ensures x / c == q && x % c == r
  {
    var q', r' := x / c, x % c;
    assert x == q' * c + r' && 0 <= r' < c;
    if q < q' {
      MulMono(1, q' - q, c);
    } else if q' < q {
      MulMono(1, q - q', c);
    }
  }

  /** Reducing a value already below the modulus leaves it unchanged. */
  lemma ModOfSmall(x: int, c: int)
    requires 0 <= x && 0 < c
    ensures x < c ==> x % c == x
  {
  }

  /** One more than a value, reduced: the reduced value plus one, wrapping
      to 0 at the modulus. */
  lemma ModAddOne(a: int, n: int)
    requires 0 < n
    ensures (a + 1) % n == if a % n + 1 < n then a % n + 1 else 0
  {
    var q, r := a / n, a % n;
    assert a == q * n + r;
    if r + 1 < n {
      DivModUnique(a + 1, n, q, r + 1);
    } else {
      assert (q + 1) * n == q * n + n;
      DivModUnique(a + 1, n, q + 1, 0);
    }
  }

  /** Adding a non-zero amount smaller than the modulus changes the residue. */
  lemma ModAddChanges(a: int, d: int, n: int)
    requires 0 < d < n
    ensures (a + d) % n != a % n
  {
    var q, r := a / n, a % n;
    assert a == q * n + r;
    if r + d < n {
      DivModUnique(a + d, n, q, r + d);
    } else {
      assert (q + 1) * n == q * n + n;
      DivModUnique(a + d, n, q + 1, r + d - n);
    }
  }

  /** Rescaling [0, inMax] onto [0, outMax] lands in [0, outMax], sends the
      ends of the input range to the ends of the output range, and reaches
      outMax only at inMax. */
  lemma MapOntoRange(x: int, inMax: int, outMax: int)
    requires 0 <= x <= inMax && 0 < inMax && 0 <= outMax
    ensures 0 <= ArduinoMap(x, 0, inMax, 0, outMax) <= outMax
    ensures x == 0 ==> ArduinoMap(x, 0, inMax, 0, outMax) == 0
    ensures x == inMax ==> ArduinoMap(x, 0, inMax, 0, outMax) == outMax
    ensures 0 < outMax && x < inMax ==> ArduinoMap(x, 0, inMax, 0, outMax) < outMax
  {
    MulMono(x, inMax, outMax);
    assert ArduinoMap(x, 0, inMax, 0, outMax) == (x * outMax) / inMax;
    DivMono(x * outMax, inMax * outMax, inMax);
    assert (inMax * outMax) / inMax == outMax;
    if 0 < outMax && x < inMax {
      assert x * outMax < inMax * outMax;
      DivBelow(x * outMax, outMax, inMax);
    }
  }

  /** Rescaling [0, inMax] onto [0, outMax] is monotonic. */
  lemma MapMonotone(x: int, y: int, inMax: int, outMax: int)
    requires 0 <= x <= y <= inMax && 0 < inMax && 0 <= outMax
    ensures ArduinoMap(x, 0, inMax, 0, outMax) <= ArduinoMap(y, 0, inMax, 0, outMax)
  {
    MulMono(x, y, outMax);
    assert ArduinoMap(x, 0, inMax, 0, outMax) == (x * outMax) / inMax;
    assert ArduinoMap(y, 0, inMax, 0, outMax) == (y * outMax) / inMax;
    DivMono(x * outMax, y * outMax, inMax);
  }
}
