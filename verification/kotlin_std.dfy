/** The parts of Kotlin's core semantics the app relies on: nullable values,
    exceptions that escape a call, 32-bit `Int` arithmetic and the truncating
    division and remainder of `/` and `%`. */
module KotlinStd {

  /** A Kotlin nullable `T?`. */
  datatype Option<+T> = None | Some(value: T) {
    function GetOr(default: T): T {
      match this
      case Some(v) => v
      case None => default
    }
  }

  /** A call that either returns a value or lets an exception escape. */
  datatype Outcome<+T> = Returns(value: T) | Throws

  const IntMin: int := -0x8000_0000
  const IntMax: int := 0x7FFF_FFFF

  predicate InIntRange(x: int) { IntMin <= x <= IntMax }

  /** Two's-complement wrap-around of a 32-bit `Int` result. */
  function Wrap32(x: int): (r: int)
    ensures InIntRange(r)
    ensures (r - x) % 0x1_0000_0000 == 0
    ensures InIntRange(x) ==> r == x
  {
    (x - IntMin) % 0x1_0000_0000 + IntMin
  }

  /** Wrapping an intermediate result changes nothing: a sum computed in
      two wrapped steps equals the sum wrapped once. */
  lemma WrapThenAdd(a: int, b: int)
    ensures Wrap32(Wrap32(a) + b) == Wrap32(a + b)
  {
    var r, w := Wrap32(Wrap32(a) + b), Wrap32(a + b);
    var k := (Wrap32(a) - a) / 0x1_0000_0000;
    assert Wrap32(a) == a + k * 0x1_0000_0000;
    WrapUnique(Wrap32(a) + b, w);
  }

  /** An `Int` congruent to `x` modulo 2^32 is the wrap of `x`. */
  lemma WrapUnique(x: int, y: int)
    requires InIntRange(y) && (y - x) % 0x1_0000_0000 == 0
    ensures Wrap32(x) == y
  {
    var r := Wrap32(x);
    var i := (r - x) / 0x1_0000_0000;
    var j := (y - x) / 0x1_0000_0000;
    assert r - x == i * 0x1_0000_0000;
    assert y - x == j * 0x1_0000_0000;
    assert r - y == (i - j) * 0x1_0000_0000;
  }

  /** Kotlin's integer `/`: rounds toward zero. */
  function TruncDiv(a: int, b: int): (q: int)
    requires b != 0
  {
    if a >= 0 then a / b
    else if b > 0 then -((-a) / b)
    else (-a) / (-b)
  }

  /** Kotlin's integer `%`: the remainder takes the sign of the dividend. */
  function TruncRem(a: int, b: int): (r: int)
    requires b != 0
  {
    a - b * TruncDiv(a, b)
  }

  /** The division identity and the sign and size of the remainder. */
  lemma TruncDivRem(a: int, b: int)
    requires b > 0
    ensures a == b * TruncDiv(a, b) + TruncRem(a, b)
    ensures a >= 0 ==> 0 <= TruncRem(a, b) < b && TruncDiv(a, b) == a / b
    ensures a < 0 ==> -b < TruncRem(a, b) <= 0 && TruncDiv(a, b) <= 0
  {
    if a < 0 {
      var q := (-a) / b;
      assert -a == b * q + (-a) % b;
    }
  }
}
