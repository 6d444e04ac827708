/** Savitzky–Golay smoothing and differentiation over a sliding window of
    samples. The coefficient matrix is the pseudo-inverse of a Vandermonde
    matrix; the pseudo-inverse itself is a parameter (`pinv`), and only its
    shape is assumed (`PinvShaped`). */
module DerivativeEstimator {
  import opened Wrappers
  import opened Numerics

  type Matrix = seq<seq<real>>

  /** Why a coefficient computation raised. */
  datatype SgError =
    | NotPositiveOdd   // "window size must be a positive odd number"
    | TooSmall         // "window size is too small for the polynomial"
    | NoSuchRow        // numpy IndexError: the requested derivative row does not exist

  /** `m` has `rows` rows of `cols` entries each. */
  ghost predicate IsMatrix(m: Matrix, rows: int, cols: int)
  {
    |m| == rows && forall r :: 0 <= r < |m| ==> |m[r]| == cols
  }

  /** What the model assumes of `np.linalg.pinv`: an `r x c` matrix has a
      `c x r` pseudo-inverse. Nothing is assumed about its entries. */
  ghost predicate PinvShaped(pinv: Matrix -> Matrix)
  {
    forall b: Matrix, rows: int, cols: int :: IsMatrix(b, rows, cols) ==> IsMatrix(pinv(b), cols, rows)
  }

  /** Python's `k ** i` on integers with `i >= 0`. */
  function Power(k: int, i: nat): int
  {
    if i == 0 then 1 else k * Power(k, i - 1)
  }

  /** Raising a negated base flips the sign exactly for odd exponents. */
  lemma {:induction false} PowerOfNegation(k: int, i: nat)
    ensures Power(-k, i) == if i % 2 == 0 then Power(k, i) else -Power(k, i)
  {
    if i > 0 {
      PowerOfNegation(k, i - 1);
    }
  }

  /** `len(range(order + 1))`: the number of polynomial coefficients. */
  function Columns(order: int): (c: nat)
    ensures c >= order + 1 && (order + 1 >= 0 ==> c == order + 1)
  {
    if order + 1 > 0 then order + 1 else 0
  }

  /** `B`: one row per offset `k` in `-half_window .. half_window`, holding
      `k ** i` for `i` in `0 .. order`. */
  function Vandermonde(window: nat, order: int): (b: Matrix)
    ensures IsMatrix(b, window, Columns(order))
    ensures forall r, i :: 0 <= r < window && 0 <= i < Columns(order) ==>
              b[r][i] == Power(r - (window - 1) / 2, i) as real
  {
    var half := (window - 1) / 2;
    seq(window, r requires 0 <= r < window =>
      seq(Columns(order), i requires 0 <= i < Columns(order) => Power(r - half, i) as real))
  }

  /** The Vandermonde matrix of an odd window is mirror-symmetric: row `r` and
      row `window-1-r` agree in even columns and differ in sign in odd ones,
      and the middle row is `1, 0, 0, ...`. */
  lemma {:induction false} VandermondeSymmetry(window: nat, order: int, r: nat, i: nat)
    requires window % 2 == 1 && r < window && i < Columns(order)
    ensures var b := Vandermonde(window, order);
            b[window - 1 - r][i] == if i % 2 == 0 then b[r][i] else -b[r][i]
    ensures Vandermonde(window, order)[(window - 1) / 2][i] == if i == 0 then 1.0 else 0.0
  {
    var half := (window - 1) / 2;
    assert window - 1 - r - half == -(r - half);
    PowerOfNegation(r - half, i);
    if i > 0 {
      assert Power(0, i) == 0 * Power(0, i - 1);
    }
  }

  /** The default window, as the source computes it: `order + 2`. */
  function DefaultWindowAsWritten(order: int): int
  {
    order + 2
  }

  /** The default window the validation evidently expects: the smallest
      positive odd size that is at least `order + 2`. */
  function DefaultWindow(order: int): (w: int)
    ensures w % 2 == 1 && w >= 1 && w >= order + 2
    ensures forall v :: v % 2 == 1 && v >= 1 && v >= order + 2 ==> w <= v
  {
    if order + 2 < 1 then 1
    else if (order + 2) % 2 == 1 then order + 2
    else order + 3
  }

  /** The validation and matrix of `savitzky_golay(window_size, order)`, given
      the window actually used. */
  function CoefficientsFor(w: int, order: int, pinv: Matrix -> Matrix): (r: Result<Matrix, SgError>)
    ensures r == Failure(NotPositiveOdd) <==> w % 2 != 1 || w < 1
    ensures r == Failure(TooSmall) <==> w % 2 == 1 && 1 <= w < order + 2
    ensures r.Success? ==> r.value == pinv(Vandermonde(w, order))
    ensures r.Success? && PinvShaped(pinv) ==> IsMatrix(r.value, Columns(order), w)
  {
    if w % 2 != 1 || w < 1 then Failure(NotPositiveOdd)
    else if w < order + 2 then Failure(TooSmall)
    else Success(pinv(Vandermonde(w, order)))
  }

  /** `savitzky_golay` exactly as written: a missing window becomes
      `order + 2`. */
  function CoefficientsAsWritten(window: Option<int>, order: int, pinv: Matrix -> Matrix): (r: Result<Matrix, SgError>)
    ensures window.Some? ==> r == CoefficientsFor(window.value, order, pinv)
  {
    CoefficientsFor(if window.None? then DefaultWindowAsWritten(order) else window.value, order, pinv)
  }

  /** As written, the default window is even for every even order, so
      `savitzky_golay()` with its default `order=2` always raises. */
  lemma DefaultWindowRaisesForEvenOrder(order: int, pinv: Matrix -> Matrix)
    requires order % 2 == 0
    ensures CoefficientsAsWritten(None, order, pinv) == Failure(NotPositiveOdd)
  {}

  /** `savitzky_golay` with the corrected default window. */
  function Coefficients(window: Option<int>, order: int, pinv: Matrix -> Matrix): (r: Result<Matrix, SgError>)
    ensures window.Some? ==> r == CoefficientsAsWritten(window, order, pinv)
    ensures window.None? ==> r.Success?
  {
    CoefficientsFor(if window.None? then DefaultWindow(order) else window.value, order, pinv)
  }

  /** `sg_filter` and the `SavitzkyGolay` constructor bump an even size to
      the next odd number; the result is always odd. */
  function NormaliseSize(size: int): (s: int)
    ensures s % 2 == 1
    ensures s == size || s == size + 1
    ensures size % 2 == 1 ==> s == size
  {
    if size % 2 == 0 then size + 1 else size
  }

  /** The polynomial order is raised to at least `deriv + 1`. */
  function NormaliseOrder(order: int, deriv: int): (o: int)
    ensures o >= deriv + 1 && o >= order
    ensures order >= deriv + 1 ==> o == order
  {
    if order < deriv + 1 then deriv + 1 else order
  }

  /** `sg_filter(size, deriv, order)`: row `deriv` of the coefficient matrix,
      after normalising the size and the order. With a well-shaped `pinv` it
      succeeds exactly when the normalised size is positive and large enough
      for the normalised order, and the row then has one coefficient per
      sample of the window. */
  function SgFilter(size: int, deriv: int, order: int, pinv: Matrix -> Matrix): (r: Result<seq<real>, SgError>)
    ensures PinvShaped(pinv) ==>
              (r.Success? <==> NormaliseSize(size) >= 1 &&
                               NormaliseSize(size) >= NormaliseOrder(order, deriv) + 2 &&
                               deriv + Columns(NormaliseOrder(order, deriv)) >= 0)
    ensures PinvShaped(pinv) && r.Success? ==> |r.value| == NormaliseSize(size)
  {
    var size' := NormaliseSize(size);
    var order' := NormaliseOrder(order, deriv);
    match Coefficients(Some(size'), order', pinv)
    case Failure(e) => Failure(e)
    case Success(m) =>
      assert PinvShaped(pinv) ==> |m| == Columns(order');
      var row := PyIndex(m, deriv);
      if row.None? then Failure(NoSuchRow) else Success(row.value)
  }

  /** `np.sum(a * b)` for equal-length vectors. */
  function Dot(a: seq<real>, b: seq<real>): real
    requires |a| == |b|
  {
    if |a| == 0 then 0.0 else a[0] * b[0] + Dot(a[1..], b[1..])
  }

  function Sum(a: seq<real>): real
  {
    if |a| == 0 then 0.0 else a[0] + Sum(a[1..])
  }

  /** A window holding the same value `c` everywhere yields `c` times the sum
      of the coefficients. */
  lemma {:induction false} DotOfConstant(c: real, diff: seq<real>)
    ensures Dot(seq(|diff|, _ => c), diff) == c * Sum(diff)
  {
    if |diff| > 0 {
      DotOfConstant(c, diff[1..]);
      assert seq(|diff|, _ => c)[1..] == seq(|diff[1..]|, _ => c);
    }
  }

  /** The buffer after one more sample: the first sample fills all `size`
      slots, each later one shifts the window left and lands last. */
  function Pushed(w: Option<seq<real>>, x: real, size: nat): (r: seq<real>)
    requires w.Some? ==> |w.value| == size
    requires size >= 1
    ensures |r| == size && r[size - 1] == x
    ensures w.None? ==> forall i :: 0 <= i < size ==> r[i] == x
    ensures w.Some? ==> forall i :: 0 <= i < size - 1 ==> r[i] == w.value[i + 1]
  {
    if w.None? then seq(size, _ => x) else w.value[1..] + [x]
  }

  /** The window after feeding `xs` one by one into `w`. */
  function Feed(w: Option<seq<real>>, xs: seq<real>, size: nat): (r: Option<seq<real>>)
    requires w.Some? ==> |w.value| == size
    requires size >= 1
    ensures r.Some? ==> |r.value| == size
    decreases |xs|
  {
    if xs == [] then w
    else Some(Pushed(Feed(w, xs[..|xs| - 1], size), xs[|xs| - 1], size))
  }

  /** The last `size` samples of `xs`, padded at the front with the first
      sample while fewer than `size` have arrived. */
  function LastSamples(xs: seq<real>, size: nat): (w: seq<real>)
    requires |xs| >= 1
    ensures |w| == size
  {
    seq(size, i requires 0 <= i < size => xs[if |xs| - size + i < 0 then 0 else |xs| - size + i])
  }

  /** From an empty buffer the window always holds the last `size` samples,
      padded at the front with the first sample while fewer have arrived. */
  lemma {:induction false} FeedHoldsLastSamples(xs: seq<real>, size: nat)
    requires size >= 1 && |xs| >= 1
    ensures Feed(None, xs, size) == Some(LastSamples(xs, size))
  {
    if |xs| == 1 {
      FirstSample(xs, size);
    } else {
      FeedHoldsLastSamples(xs[..|xs| - 1], size);
      NextSample(xs, xs[..|xs| - 1], size);
    }
  }

  /** The first sample fills the window. */
  lemma FirstSample(xs: seq<real>, size: nat)
    requires size >= 1 && |xs| == 1
    ensures Feed(None, xs, size) == Some(LastSamples(xs, size))
  {
    assert Feed(None, xs[..0], size) == None;
    assert Feed(None, xs, size).value == LastSamples(xs, size);
  }

  /** A later sample shifts the last samples of the prefix along by one. */
  lemma NextSample(xs: seq<real>, prefix: seq<real>, size: nat)
    requires size >= 1 && |xs| >= 2 && prefix == xs[..|xs| - 1]
    requires Feed(None, prefix, size) == Some(LastSamples(prefix, size))
    ensures Feed(None, xs, size) == Some(LastSamples(xs, size))
  {
    var w := LastSamples(prefix, size);
    var r := Pushed(Some(w), xs[|xs| - 1], size);
    var expected := LastSamples(xs, size);
    forall i | 0 <= i < size
      ensures r[i] == expected[i]
    {
      if i < size - 1 {
        assert r[i] == w[i + 1];
      }
    }
    assert r == expected;
  }

  /** A Savitzky–Golay estimator over a sliding window; `buffer == null`
      stands for Python's `None` (no sample yet). */
  class SavitzkyGolay {
    var size: int
    var deriv: int
    var diff: seq<real>
    var buffer: array?<real>

    ghost predicate Valid()
      reads this, buffer
    {
      size >= 1 && size % 2 == 1 && |diff| == size &&
      (buffer != null ==> buffer.Length == size)
    }

    /** The current window, or `None` before the first sample. */
    function Window(): Option<seq<real>>
      reads this, buffer
    {
      if buffer == null then None else Some(buffer[..])
    }

    /** Raises unless `sg_filter(size, deriv, order)` succeeds. */
    constructor (size0: int, deriv: int, order: int, pinv: Matrix -> Matrix)
      requires PinvShaped(pinv) && SgFilter(size0, deriv, order, pinv).Success?
      ensures Valid() && buffer == null && Window() == None
      ensures size == NormaliseSize(size0) && this.deriv == deriv
      ensures diff == SgFilter(size0, deriv, order, pinv).value
    {
      size := NormaliseSize(size0);
      this.deriv := deriv;
      diff := SgFilter(size0, deriv, order, pinv).value;
      buffer := null;
    }

    /** `new_sample(x)`: push `x` into the window and return the dot product
        of the window with the coefficients. */
    method NewSample(x: real) returns (result: real)
      requires Valid()
      modifies this, buffer
      ensures size == old(size) && deriv == old(deriv) && diff == old(diff)
      ensures Valid()
      ensures Window() == Some(Pushed(old(Window()), x, size))
      ensures result == Dot(buffer[..], diff)
      ensures old(buffer) == null ==> fresh(buffer)
      ensures old(buffer) != null ==> buffer == old(buffer)
    {
      if buffer == null {
        buffer := new real[size](_ => x);
        assert buffer[..] == seq(size, _ => x);
      } else {
        ShiftIn(buffer, x);
        assert buffer[..] == old(buffer[..])[1..] + [x];
      }
      result := Dot(buffer[..], diff);
    }

    /** `clear()`: forget the window; the next sample refills it. */
    method Clear()
      modifies this
      ensures buffer == null && Window() == None
      ensures size == old(size) && deriv == old(deriv) && diff == old(diff)
    {
      buffer := null;
    }
  }

  /** `buffer[0:-1] = buffer[1:]; buffer[-1] = x`, in place. */
  method ShiftIn(buffer: array<real>, x: real)
    requires buffer.Length >= 1
    modifies buffer
    ensures buffer[..] == old(buffer[..])[1..] + [x]
  {
    var i := 0;
    while i < buffer.Length - 1
      invariant 0 <= i <= buffer.Length - 1
      invariant forall j :: 0 <= j < i ==> buffer[j] == old(buffer[j + 1])
      invariant forall j :: i <= j < buffer.Length ==> buffer[j] == old(buffer[j])
    {
      buffer[i] := buffer[i + 1];
      i := i + 1;
    }
    buffer[buffer.Length - 1] := x;
    assert forall j :: 0 <= j < buffer.Length - 1 ==> buffer[j] == old(buffer[j + 1]);
  }

  /** The first sample after construction or `clear` fills the window with
      copies of itself, so the estimate is that sample times the sum of the
      coefficients. */
  lemma FirstSampleEstimate(x: real, diff: seq<real>, size: nat)
    requires size >= 1 && |diff| == size
    ensures Dot(Pushed(None, x, size), diff) == x * Sum(diff)
  {
    assert Pushed(None, x, size) == seq(|diff|, _ => x);
    DotOfConstant(x, diff);
  }
}
