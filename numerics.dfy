/** Numeric helpers shared by the control-rate layer: Python's integer
    conversions, numpy's clip, and the random-number primitives, each expressed
    through an explicit draw instead of a hidden generator. */
module Numerics {
  import opened Wrappers

  /** One result of Python's `random.random()`: a real in [0, 1). */
  type Draw = u: real | 0.0 <= u < 1.0

  function Abs(x: real): (r: real)
    ensures r >= 0.0 && (r == x || r == -x)
  {
    if x < 0.0 then -x else x
  }

  function Min(x: real, y: real): real { if x <= y then x else y }

  function Max(x: real, y: real): real { if x <= y then y else x }

  /** `numpy.clip(x, lo, hi)`, i.e. `min(max(x, lo), hi)`. */
  function Clip(x: real, lo: real, hi: real): (r: real)
    requires lo <= hi
    ensures lo <= r <= hi
    ensures lo <= x <= hi ==> r == x
    ensures x < lo ==> r == lo
    ensures x > hi ==> r == hi
  {
    if x < lo then lo else if x > hi then hi else x
  }

  /** Python's `int(x)` for a float: truncation toward zero. Also what numpy
      does when a float is stored into an integer array. */
  function TruncToInt(x: real): (r: int)
    ensures x >= 0.0 ==> r as real <= x < r as real + 1.0
    ensures x < 0.0 ==> r as real - 1.0 < x <= r as real
  {
    if x >= 0.0 then x.Floor else -((-x).Floor)
  }

  /** Python's `s[i]`: a negative index counts from the end, and an index
      outside `-len(s) .. len(s)-1` raises IndexError (here `None`). */
  function PyIndex<T>(s: seq<T>, i: int): (r: Option<T>)
    ensures r.Some? <==> -|s| <= i < |s|
    ensures 0 <= i < |s| ==> r == Some(s[i])
    ensures -|s| <= i < 0 ==> r == Some(s[|s| + i])
    ensures r.Some? ==> r.value in s
  {
    if 0 <= i < |s| then Some(s[i])
    else if -|s| <= i < 0 then Some(s[|s| + i])
    else None
  }

  const TwoTo32: int := 0x1_0000_0000

  /** Storing a Python int into a ctypes 32-bit signed slot keeps only its low
      32 bits (two's complement, no overflow check). */
  function ToInt32(x: int): (r: int)
    ensures -0x8000_0000 <= r < 0x8000_0000
    ensures (r - x) % TwoTo32 == 0
    ensures -0x8000_0000 <= x < 0x8000_0000 ==> r == x
  {
    (x + 0x8000_0000) % TwoTo32 - 0x8000_0000
  }

  /** `int(u * n)` for a draw `u`: the index CPython 2's `random.choice` takes
      in a sequence of length `n`. */
  function PickIndex(u: Draw, n: nat): (k: nat)
    requires n > 0
    ensures k < n
  {
    ScaledDrawBelow(u, n);
    (u * n as real).Floor
  }

  lemma ScaledDrawBelow(u: Draw, n: nat)
    requires n > 0
    ensures 0.0 <= u * n as real < n as real
  {
    assert u * n as real <= u * n as real + (1.0 - u) * n as real == n as real;
    assert (1.0 - u) * n as real > 0.0;
  }

  /** `random.choice(s)` driven by the draw `u`. */
  function Choice<T>(s: seq<T>, u: Draw): (x: T)
    requires |s| > 0
    ensures x in s
  {
    s[PickIndex(u, |s|)]
  }

  /** `random.randint(a, b)`: `a + int(random() * (b - a + 1))` in CPython 2. */
  function RandInt(a: int, b: int, u: Draw): (r: int)
    requires a <= b
    ensures a <= r <= b
  {
    a + PickIndex(u, b - a + 1)
  }

  /** `numpy.random.uniform(lo, hi)`: `lo + (hi - lo) * random_sample()`. */
  function Uniform(lo: real, hi: real, u: Draw): (r: real)
    ensures Min(lo, hi) <= r <= Max(lo, hi)
    ensures lo < hi ==> r < hi
  {
    UniformBetween(lo, hi, u);
    lo + Share(hi - lo, u)
  }

  /** The share `w * u` of a span `w` that a draw `u` selects. */
  function Share(w: real, u: Draw): real { w * u }

  lemma UniformBetween(lo: real, hi: real, u: Draw)
    ensures Min(lo, hi) <= lo + Share(hi - lo, u) <= Max(lo, hi)
    ensures lo < hi ==> lo + Share(hi - lo, u) < hi
  {
    if lo < hi {
      ShareBelow(hi - lo, u);
    } else if hi < lo {
      ShareBelow(lo - hi, u);
      assert Share(hi - lo, u) == -Share(lo - hi, u);
    }
  }

  /** `0 <= w * u < w` for a draw `u` and `w > 0`. */
  lemma ShareBelow(w: real, u: Draw)
    requires w > 0.0
    ensures 0.0 <= Share(w, u) < w
  {
    var v := 1.0 - u;
    PositiveProduct(w, v);
    NonnegativeProduct(w, u);
    assert w * u + w * v == w;
  }

  lemma PositiveProduct(a: real, b: real)
    requires a > 0.0 && b > 0.0
    ensures a * b > 0.0
  {}

  lemma NonnegativeProduct(a: real, b: real)
    requires a >= 0.0 && b >= 0.0
    ensures a * b >= 0.0
  {
    if a > 0.0 && b > 0.0 {
      PositiveProduct(a, b);
    }
  }

  /** Scaling by a factor in [0, 1] moves a value toward zero. */
  lemma ScaledByFraction(a: real, x: real)
    requires 0.0 <= a <= 1.0
    ensures x >= 0.0 ==> 0.0 <= a * x <= x
    ensures x <= 0.0 ==> x <= a * x <= 0.0
  {
    if x >= 0.0 {
      FractionOfNonnegative(a, x);
    } else {
      FractionOfNegative(a, x);
    }
  }

  lemma FractionOfNonnegative(a: real, x: real)
    requires 0.0 <= a <= 1.0 && x >= 0.0
    ensures 0.0 <= a * x <= x
  {
    var b := 1.0 - a;
    SplitProduct(a, b, x);
    NonnegativeProduct(a, x);
    NonnegativeProduct(b, x);
  }

  lemma FractionOfNegative(a: real, x: real)
    requires 0.0 <= a <= 1.0 && x < 0.0
    ensures x <= a * x <= 0.0
  {
    FractionOfNonnegative(a, -x);
    Negated(a, x);
  }

  /** `a * x + b * x == (a + b) * x`, with `a + b == 1`. */
  lemma SplitProduct(a: real, b: real, x: real)
    requires a + b == 1.0
    ensures a * x + b * x == x
  {
    assert a * x + b * x == (a + b) * x;
  }

  /** `a * -x == -(a * x)`. */
  lemma Negated(a: real, x: real)
    ensures a * -x == -(a * x)
  {}

  /** `-a * x == -(a * x)`. */
  lemma NegatedFactor(a: real, x: real)
    ensures (-a) * x == -(a * x)
  {}

  /** Scaling by a factor in [-1, 1] never increases the magnitude. */
  lemma ScaledBound(w: real, d: real)
    requires -1.0 <= w <= 1.0
    ensures Abs(w * d) <= Abs(d)
  {
    if w >= 0.0 {
      FractionBound(w, d);
    } else {
      NegativeFractionBound(w, d);
    }
  }

  /** Scaling by a factor in [0, 1] never increases the magnitude. */
  lemma FractionBound(a: real, d: real)
    requires 0.0 <= a <= 1.0
    ensures Abs(a * d) <= Abs(d)
  {
    if d >= 0.0 {
      NonnegativeBound(a, d);
    } else {
      NegativeBound(a, d);
    }
  }

  lemma NonnegativeBound(a: real, d: real)
    requires 0.0 <= a <= 1.0 && d >= 0.0
    ensures Abs(a * d) <= Abs(d)
  {
    FractionOfNonnegative(a, d);
  }

  lemma NegativeBound(a: real, d: real)
    requires 0.0 <= a <= 1.0 && d < 0.0
    ensures Abs(a * d) <= Abs(d)
  {
    FractionOfNegative(a, d);
  }

  lemma NegativeFractionBound(w: real, d: real)
    requires -1.0 <= w < 0.0
    ensures Abs(w * d) <= Abs(d)
  {
    FractionBound(-w, d);
    NegatedFactor(w, d);
  }

  lemma AbsProduct(a: real, x: real)
    ensures Abs(a * x) == Abs(a) * Abs(x)
  {
    if a >= 0.0 {
      AbsProductNonnegative(a, x);
    } else {
      AbsProductNonnegative(-a, x);
      NegatedFactor(a, x);
    }
  }

  lemma AbsProductNonnegative(a: real, x: real)
    requires a >= 0.0
    ensures Abs(a * x) == a * Abs(x)
  {
    if x >= 0.0 {
      AbsOfNonnegatives(a, x);
    } else {
      AbsOfMixed(a, x);
    }
  }

  lemma AbsOfNonnegatives(a: real, x: real)
    requires a >= 0.0 && x >= 0.0
    ensures Abs(a * x) == a * Abs(x)
  {
    NonnegativeProduct(a, x);
  }

  lemma AbsOfMixed(a: real, x: real)
    requires a >= 0.0 && x < 0.0
    ensures Abs(a * x) == a * Abs(x)
  {
    NonnegativeProduct(a, -x);
    Negated(a, x);
  }

  /** The transcendental operations the control layer uses, as parameters:
      `pow(b, e)` is Python's `b ** e` on floats, `sin` is `numpy.sin` and `pi`
      is `numpy.pi`. */
  datatype Maths = Maths(pow: (real, real) -> real, sin: real -> real, pi: real)
  {
    /** `b ** e`. */
    function Pow(b: real, e: real): real { pow(b, e) }

    /** `numpy.sin(x)`. */
    function Sin(x: real): real { sin(x) }
  }

  /** The facts about real exponentiation and the sine the proofs rely on. */
  ghost predicate Lawful(m: Maths)
  {
    && (forall e :: m.Pow(1.0, e) == 1.0)
    && (forall e :: e > 0.0 ==> m.Pow(0.0, e) == 0.0)
    && (forall b, e :: 0.0 <= b <= 1.0 && 0.0 <= e ==> 0.0 <= m.Pow(b, e) <= 1.0)
    && (forall x :: 0.0 < m.Pow(2.0, x))
    && (forall x :: x < 0.0 ==> m.Pow(2.0, x) < 1.0)
    && (forall x :: -1.0 <= m.Sin(x) <= 1.0)
  }
}
