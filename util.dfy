/** Small helpers shared by the modules of the model: optional values,
    results of operations that can raise, Python's numeric idioms over
    `real`, and decimal rendering of natural numbers. */
module Util {

  datatype Option<+T> = None | Some(value: T)

  /** An operation that either returns a value or raises an exception
      carrying a message. */
  datatype Result<+T> = Ok(value: T) | Err(message: string)

  function Min(a: real, b: real): real { if a <= b then a else b }

  function Max(a: real, b: real): real { if a >= b then a else b }

  /** numpy's `clip(x, lo, hi)`, i.e. `minimum(hi, maximum(x, lo))`. */
  function Clip(x: real, lo: real, hi: real): (r: real)
    ensures lo <= hi ==> lo <= r <= hi
    ensures lo <= x <= hi ==> r == x
    ensures x < lo && lo <= hi ==> r == lo
    ensures hi < x && lo <= hi ==> r == hi
  {
    Min(hi, Max(x, lo))
  }

  /** Python's `int(x)` on a float: truncation toward zero. */
  function Trunc(x: real): (r: int)
    ensures x >= 0.0 ==> r == x.Floor
    ensures x >= 0.0 ==> r as real <= x < r as real + 1.0
    ensures x < 0.0 ==> r <= 0
  {
    if x >= 0.0 then x.Floor else -((-x).Floor)
  }

  /** `int(n * 0.05)` for a natural n: the integer quotient n / 20. */
  lemma TruncTwentieth(n: nat)
    ensures Trunc(0.05 * n as real) == n / 20
  {
    var q, r := n / 20, n % 20;
    var x := 0.05 * n as real;
    assert n == 20 * q + r;
    assert x == q as real + r as real / 20.0;
    assert q as real <= x < q as real + 1.0;
  }

  /** Python's float `x % m` for a positive modulus: the result has the sign
      of the modulus, so it lies in [0, m). */
  function FMod(x: real, m: real): (r: real)
    requires m > 0.0
    ensures 0.0 <= r < m
  {
    FloorScaled(x, m);
    x - m * ((x / m).Floor as real)
  }

  lemma FloorScaled(x: real, m: real)
    requires m > 0.0
    ensures m * ((x / m).Floor as real) <= x < m * ((x / m).Floor as real) + m
  {
    var q := x / m;
    var f := q.Floor as real;
    var lo, mid, hi := m * f, m * q, m * (f + 1.0);
    assert mid == x;
    if f < q { MulStrict(m, f, q); }
    MulStrict(m, q, f + 1.0);
    assert hi == lo + m;
    assert mid < hi;
    assert x < lo + m;
  }

  lemma MulStrict(m: real, a: real, b: real)
    requires m > 0.0 && a < b
    ensures m * a < m * b
  {
    var d := b - a;
    assert m * d > 0.0;
    assert m * b == m * a + m * d;
  }

  /** Sum of a sequence of reals (numpy's `sum`). */
  function Sum(s: seq<real>): real
  {
    if |s| == 0 then 0.0 else Sum(s[..|s| - 1]) + s[|s| - 1]
  }

  lemma {:induction false} SumNonNegative(s: seq<real>)
    requires forall i :: 0 <= i < |s| ==> s[i] >= 0.0
    ensures Sum(s) >= 0.0
  {
    if |s| > 0 {
      SumNonNegative(s[..|s| - 1]);
    }
  }

  /** The characters `str.isspace` accepts: those `str.split()` splits on
      and `str.strip()` and `int()` remove. */
  predicate IsSpace(c: char)
  {
    || '\t' <= c <= '\r'
    || '\U{001C}' <= c <= ' '
    || c == '\U{0085}' || c == '\U{00A0}' || c == '\U{1680}'
    || '\U{2000}' <= c <= '\U{200A}'
    || c == '\U{2028}' || c == '\U{2029}' || c == '\U{202F}' || c == '\U{205F}' || c == '\U{3000}'
  }

  /** `str(n)` for a natural number. */
  function NatToString(n: nat): (r: string)
    ensures |r| >= 1
    ensures forall i :: 0 <= i < |r| ==> '0' <= r[i] <= '9'
    decreases n
  {
    if n < 10 then [DigitChar(n)] else NatToString(n / 10) + [DigitChar(n % 10)]
  }

  function DigitChar(d: nat): (c: char)
    requires d < 10
    ensures '0' <= c <= '9' && c as int == '0' as int + d
  {
    ('0' as int + d) as char
  }

  /** The value a decimal string denotes; the inverse of NatToString. */
  function DecimalValue(s: string): nat
    requires forall i :: 0 <= i < |s| ==> '0' <= s[i] <= '9'
  {
    if |s| == 0 then 0
    else 10 * DecimalValue(s[..|s| - 1]) + ((s[|s| - 1] as int) - ('0' as int))
  }

  lemma {:induction false} NatToStringRoundTrip(n: nat)
    ensures DecimalValue(NatToString(n)) == n
    decreases n
  {
    var r := NatToString(n);
    if n < 10 {
      assert r == [DigitChar(n)];
    } else {
      NatToStringRoundTrip(n / 10);
      assert r[..|r| - 1] == NatToString(n / 10);
      assert r[|r| - 1] == DigitChar(n % 10);
    }
  }
}
