/**
 * C integer arithmetic on `long` as the plotting code uses it: `/` truncates
 * toward zero and `%` takes the sign of the dividend (Dafny's own operators
 * are Euclidean), and Arduino's `map`.
 */
module CArith {

  function Abs(x: int): nat
  {
    if x < 0 then -x else x
  }

  /** C division: the quotient of the magnitudes, negated when the operands' signs differ. */
  function TruncDiv(a: int, b: int): (q: int)
    requires b != 0
    ensures Abs(q) * Abs(b) <= Abs(a) < (Abs(q) + 1) * Abs(b)
    ensures q != 0 ==> (q > 0 <==> (a > 0) == (b > 0))
  {
    var m := Abs(a) / Abs(b);
    if (a >= 0) == (b > 0) then m else -m
  }

  /** C remainder: what is left after the truncated quotient. */
  function CRem(a: int, b: int): (r: int)
    requires b != 0
    ensures Abs(r) < Abs(b)
    ensures r != 0 ==> (r > 0 <==> a > 0)
    ensures a >= 0 && b > 0 ==> r == a % b
  {
    a - b * TruncDiv(a, b)
  }

  /** Arduino map: `(x - inMin) * (outMax - outMin) / (inMax - inMin) + outMin` with C division. */
  function ArduinoMap(x: int, inMin: int, inMax: int, outMin: int, outMax: int): (r: int)
    requires inMin != inMax
    ensures x == inMin ==> r == outMin
    ensures x == inMax ==> r == outMax
  {
    var run, rise := inMax - inMin, outMax - outMin;
    assert x == inMin ==> (x - inMin) * rise == 0 * run;
    assert x == inMax ==> (x - inMin) * rise == rise * run;
    TruncDivExact(0, run);
    TruncDivExact(rise, run);
    TruncDiv((x - inMin) * rise, run) + outMin
  }

  /** Dividing an exact multiple gives the factor back. */
  lemma TruncDivExact(k: int, b: int)
    requires b != 0
    ensures TruncDiv(k * b, b) == k
  {
    var a := k * b;
    assert Abs(a) == Abs(k) * Abs(b) by {
      if k < 0 && b < 0 { assert a == (-k) * (-b); }
      else if k < 0 { assert -a == (-k) * b; }
      else if b < 0 { assert -a == k * (-b); }
    }
    DivOfMultiple(Abs(k), Abs(b));
  }

  lemma DivOfMultiple(m: nat, n: nat)
    requires n > 0
    ensures (m * n) / n == m
  {
    var q, r := (m * n) / n, (m * n) % n;
    assert n * (m - q) == r;
    MulSign(n, m - q);
    assert n * (m - q - 1) == r - n;
    MulSign(n, m - q - 1);
  }

  /** Euclidean division by a positive number is monotone. */
  lemma DivMonotone(x: int, y: int, b: int)
    requires b > 0 && x <= y
    ensures x / b <= y / b
  {
    var qx, qy := x / b, y / b;
    assert b * (qy - qx + 1) == b * qy + b - b * qx;
    MulSign(b, qy - qx + 1);
  }

  lemma MulMonotone(b: int, u: int, v: int)
    requires b >= 0 && u <= v
    ensures b * u <= b * v
  {
    assert b * v - b * u == b * (v - u);
  }

  /** With a positive factor, a product is negative exactly when the other factor is. */
  lemma MulSign(b: int, u: int)
    requires b > 0
    ensures b * u < 0 <==> u < 0
  {
    if u < 0 {
      MulMonotone(b, u, -1);
    } else {
      MulMonotone(b, 0, u);
    }
  }

  /** C division by a positive number is monotone in the dividend. */
  lemma TruncDivMonotone(a1: int, a2: int, b: int)
    requires b > 0 && a1 <= a2
    ensures TruncDiv(a1, b) <= TruncDiv(a2, b)
  {
    if a1 >= 0 {
      DivMonotone(a1, a2, b);
    } else if a2 < 0 {
      DivMonotone(-a2, -a1, b);
    }
  }

  /** Over an increasing domain onto an increasing range, map is monotone. */
  lemma {:induction false} MapMonotone(x1: int, x2: int, inMin: int, inMax: int, outMin: int, outMax: int)
    requires inMin < inMax && outMin <= outMax && x1 <= x2
    ensures ArduinoMap(x1, inMin, inMax, outMin, outMax) <= ArduinoMap(x2, inMin, inMax, outMin, outMax)
  {
    MulMonotone(outMax - outMin, x1 - inMin, x2 - inMin);
    assert (x1 - inMin) * (outMax - outMin) <= (x2 - inMin) * (outMax - outMin);
    TruncDivMonotone((x1 - inMin) * (outMax - outMin), (x2 - inMin) * (outMax - outMin), inMax - inMin);
  }

  /** map does not clamp: one domain width beyond either end lands one range width beyond that end. */
  lemma MapNotClamped(inMin: int, inMax: int, outMin: int, outMax: int)
    requires inMin != inMax
    ensures ArduinoMap(2 * inMax - inMin, inMin, inMax, outMin, outMax) == 2 * outMax - outMin
    ensures ArduinoMap(2 * inMin - inMax, inMin, inMax, outMin, outMax) == 2 * outMin - outMax
  {
    MapOfMultiple(2, inMin, inMax, outMin, outMax);
    MapOfMultiple(-1, inMin, inMax, outMin, outMax);
  }

  /** The point k domain widths from the minimum maps k range widths from the output minimum. */
  lemma MapOfMultiple(k: int, inMin: int, inMax: int, outMin: int, outMax: int)
    requires inMin != inMax
    ensures ArduinoMap(inMin + k * (inMax - inMin), inMin, inMax, outMin, outMax) == outMin + k * (outMax - outMin)
  {
    var run, rise := inMax - inMin, outMax - outMin;
    var x := inMin + k * run;
    calc {
      (x - inMin) * rise;
      (k * run) * rise;
      { MulAssocComm(k, run, rise); }
      (k * rise) * run;
    }
    TruncDivExact(k * rise, run);
  }

  lemma MulAssocComm(a: int, b: int, c: int)
    ensures (a * b) * c == (a * c) * b
  {
  }
}
