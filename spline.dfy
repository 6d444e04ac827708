/** The Kochanek–Bartels (TCB) cardinal spline: a cubic Hermite curve through
    a list of control points, evaluable at a real parameter `t` whose integer
    part selects the segment. Each control point is a row of `dim` reals; the
    curve is computed row-wise exactly as numpy does it, component by
    component. */
module Spline {
  import opened Wrappers
  import opened Numerics

  /** Where a parameter `t` lands: the clamped start and end knots of its
      segment and the fractional position `s` inside it. */
  datatype Locus = Locus(p0: int, p1: int, s: real)

  /** The knot selection of `__call__`: `p0 = floor(t)`, `p1 = p0 + 1`,
      `s = t - p0`, then the three clamps in source order. `p1` has no lower
      clamp, so it stays in range only for `t >= -1`. */
  function Locate(t: real, n: nat): (l: Locus)
    ensures l.s == t - t.Floor as real && 0.0 <= l.s < 1.0
    ensures n >= 1 ==> 0 <= l.p0 < n && l.p1 < n
    ensures n >= 1 && t >= -1.0 ==> 0 <= l.p1
    ensures t < -1.0 ==> l.p1 == t.Floor + 1 < 0
  {
    var p0 := t.Floor;
    var p1 := p0 + 1;
    var s := t - p0 as real;
    var p0' := if p0 < 0 then 0 else p0;
    var p1' := if p1 >= n then n - 1 else p1;
    var p0'' := if p0' >= n then n - 1 else p0';
    Locus(p0'', p1', s)
  }

  /** The cubic Hermite basis. */
  function H1(s: real): real { 2.0 * s * s * s - 3.0 * s * s + 1.0 }
  function H2(s: real): real { -2.0 * s * s * s + 3.0 * s * s }
  function H3(s: real): real { s * s * s - 2.0 * s * s + s }
  function H4(s: real): real { s * s * s - s * s }

  /** The first two basis functions always sum to one. */
  lemma PartitionOfUnity(s: real)
    ensures H1(s) + H2(s) == 1.0
  {}

  /** At the start of a segment only the first basis function is on; at its
      end only the second. */
  lemma BasisAtEnds()
    ensures H1(0.0) == 1.0 && H2(0.0) == 0.0 && H3(0.0) == 0.0 && H4(0.0) == 0.0
    ensures H1(1.0) == 0.0 && H2(1.0) == 1.0 && H3(1.0) == 0.0 && H4(1.0) == 0.0
  {}

  /** Tension, continuity and bias, and the four tangent weights they give. */
  datatype Shape = Shape(tension: real, continuity: real, bias: real)
  {
    function W1(): real { (1.0 - tension) * (1.0 - continuity) * (1.0 + bias) * 0.5 }
    function W2(): real { (1.0 - tension) * (1.0 + continuity) * (1.0 - bias) * 0.5 }
    function W3(): real { (1.0 - tension) * (1.0 + continuity) * (1.0 + bias) * 0.5 }
    function W4(): real { (1.0 - tension) * (1.0 - continuity) * (1.0 - bias) * 0.5 }
  }

  /** The incoming tangent at `x0` (zero when there is no point before it)
      and the outgoing tangent at `x1` (zero when there is no point after it).
      Each is a weighted sum of differences of neighbouring points, so it is
      zero wherever the neighbourhood is flat. */
  function Tangents(xm: real, x0: real, x1: real, xp: real, atStart: bool, atEnd: bool, sh: Shape)
    : (r: (real, real))
    ensures atStart || xm == x0 == x1 ==> r.0 == 0.0
    ensures atEnd || x0 == x1 == xp ==> r.1 == 0.0
  {
    (if atStart then 0.0 * x0 else sh.W1() * (x0 - xm) + sh.W2() * (x1 - x0),
     if atEnd then 0.0 * x0 else sh.W3() * (x1 - x0) + sh.W4() * (xp - x1))
  }

  /** One component of the curve: the Hermite blend of the segment's two end
      points and its two tangents at position `s`. */
  function Blend(xm: real, x0: real, x1: real, xp: real, atStart: bool, atEnd: bool, sh: Shape, s: real)
    : real
  {
    var tg := Tangents(xm, x0, x1, xp, atStart, atEnd, sh);
    x0 * H1(s) + x1 * H2(s) + tg.0 * H3(s) + tg.1 * H4(s)
  }

  /** At `s = 0` the blend is the segment's start point, at `s = 1` its end
      point, whatever the tangents. */
  lemma {:induction false} BlendAtEnds(xm: real, x0: real, x1: real, xp: real, atStart: bool, atEnd: bool, sh: Shape)
    ensures Blend(xm, x0, x1, xp, atStart, atEnd, sh, 0.0) == x0
    ensures Blend(xm, x0, x1, xp, atStart, atEnd, sh, 1.0) == x1
  {
    BasisAtEnds();
  }

  /** When the four points are equal the tangents vanish and the blend is that
      point at every `s`. */
  lemma {:induction false} BlendOfConstant(x: real, atStart: bool, atEnd: bool, sh: Shape, s: real)
    ensures Blend(x, x, x, x, atStart, atEnd, sh, s) == x
  {
    PartitionOfUnity(s);
    assert x * H1(s) + x * H2(s) == x * (H1(s) + H2(s));
  }

  /** `CardinalSpline(pts, tension, continuity, bias)`: `pts` has one row of
      `dim` components per control point. */
  datatype CardinalSpline = CardinalSpline(pts: seq<seq<real>>, dim: nat, shape: Shape)
  {
    /** The rows form a numpy array: they all have `dim` components. */
    ghost predicate Valid()
    {
      forall i :: 0 <= i < |pts| ==> |pts[i]| == dim
    }

    /** `len(spline)`: the number of control points. */
    function Len(): (n: nat)
      ensures n == |pts| && (n == 0 <==> pts == [])
    {
      |pts|
    }

    /** The curve at the knots and position `l`. `None` is the IndexError
        numpy raises when an index falls outside the points. */
    function At(l: Locus): (r: Option<seq<real>>)
      requires Valid()
      ensures r.Some? ==> |r.value| == dim
    {
      var n := |pts|;
      var pm := l.p0 - 1;
      var pp := l.p1 + 1;
      var a := PyIndex(pts, l.p0);
      var b := PyIndex(pts, l.p1);
      var c := if pm < 0 then a else PyIndex(pts, pm);
      var d := if pp >= n then a else PyIndex(pts, pp);
      if a.None? || b.None? || c.None? || d.None? then None
      else
        Some(seq(dim, j requires 0 <= j < dim =>
          Blend(c.value[j], a.value[j], b.value[j], d.value[j], pm < 0, pp >= n, shape, l.s)))
    }

    /** `spline(t)`. */
    function Call(t: real): (r: Option<seq<real>>)
      requires Valid()
      ensures r.Some? ==> |r.value| == dim
    {
      At(Locate(t, |pts|))
    }
  }

  /** The constructor's defaults: tension -0.5 (Catmull-Rom), no continuity or
      bias change. */
  function CatmullRom(pts: seq<seq<real>>, dim: nat): (sp: CardinalSpline)
    ensures sp.pts == pts && sp.shape == Shape(-0.5, 0.0, 0.0)
  {
    CardinalSpline(pts, dim, Shape(-0.5, 0.0, 0.0))
  }

  /** The curve passes through every control point: at an integer parameter
      `k` within the points it is exactly `pts[k]`. */
  lemma {:induction false} KnotReproduction(sp: CardinalSpline, k: int)
    requires sp.Valid() && 0 <= k < |sp.pts|
    ensures sp.Call(k as real) == Some(sp.pts[k])
  {
    var l := Locate(k as real, |sp.pts|);
    assert l.p0 == k && l.s == 0.0;
    var r := sp.At(l);
    assert r.Some?;
    forall j | 0 <= j < sp.dim
      ensures r.value[j] == sp.pts[k][j]
    {
      var pm := l.p0 - 1;
      var pp := l.p1 + 1;
      var c := if pm < 0 then sp.pts[k] else sp.pts[pm];
      var d := if pp >= |sp.pts| then sp.pts[k] else sp.pts[pp];
      BlendAtEnds(c[j], sp.pts[k][j], sp.pts[l.p1][j], d[j], pm < 0, pp >= |sp.pts|, sp.shape);
    }
    assert r.value == sp.pts[k];
  }

  /** Continuity at the knots: for every `t` in `[k-1, k)` the curve is the
      segment that starts at knot `k-1`, and that segment ends (at `s = 1`)
      exactly at `pts[k]`, the curve's value at `k`. */
  lemma {:induction false} ContinuousAtKnot(sp: CardinalSpline, k: int, t: real)
    requires sp.Valid() && 1 <= k < |sp.pts|
    requires (k - 1) as real <= t < k as real
    ensures Locate(t, |sp.pts|) == Locus(k - 1, k, t - (k - 1) as real)
    ensures sp.At(Locus(k - 1, k, 1.0)) == Some(sp.pts[k]) == sp.Call(k as real)
  {
    assert t.Floor == k - 1;
    var l := Locus(k - 1, k, 1.0);
    var r := sp.At(l);
    assert r.Some?;
    forall j | 0 <= j < sp.dim
      ensures r.value[j] == sp.pts[k][j]
    {
      var pm := k - 2;
      var pp := k + 1;
      var c := if pm < 0 then sp.pts[k - 1] else sp.pts[pm];
      var d := if pp >= |sp.pts| then sp.pts[k - 1] else sp.pts[pp];
      BlendAtEnds(c[j], sp.pts[k - 1][j], sp.pts[k][j], d[j], pm < 0, pp >= |sp.pts|, sp.shape);
    }
    assert r.value == sp.pts[k];
    KnotReproduction(sp, k);
  }

  /** All-equal control points give that point everywhere the curve is
      defined, and it is defined for every `t >= -1`. */
  lemma {:induction false} ConstantPoints(sp: CardinalSpline, v: seq<real>, t: real)
    requires sp.Valid() && |sp.pts| >= 1
    requires forall i :: 0 <= i < |sp.pts| ==> sp.pts[i] == v
    ensures t >= -1.0 ==> sp.Call(t).Some?
    ensures sp.Call(t).Some? ==> sp.Call(t).value == v
  {
    var r := sp.Call(t);
    if r.Some? {
      assert |v| == sp.dim by { assert sp.pts[0] == v; }
      forall j | 0 <= j < sp.dim
        ensures r.value[j] == v[j]
      {
        var l := Locate(t, |sp.pts|);
        BlendOfConstant(v[j], l.p0 - 1 < 0, l.p1 + 1 >= |sp.pts|, sp.shape, l.s);
      }
    }
  }

  /** With no control points every evaluation raises. */
  lemma NoPointsFails(sp: CardinalSpline, t: real)
    requires sp.Valid() && sp.pts == []
    ensures sp.Call(t) == None
  {}

  /** Below `t = -1` the missing lower clamp on `p1` makes numpy's negative
      indexing wrap: on the two points 0 and 10, `t = -1.5` blends the first
      point with the LAST one and gives 5, not the first point. */
  lemma WrapsBelowMinusOne()
    ensures CatmullRom([[0.0], [10.0]], 1).Call(-1.5) == Some([5.0])
  {
    var sp := CatmullRom([[0.0], [10.0]], 1);
    assert (-1.5).Floor == -2;
    var l := Locate(-1.5, 2);
    assert l == Locus(0, -1, 0.5);
    var r := sp.At(l);
    assert r.Some?;
    assert r.value[0] == 5.0;
    assert r.value == [5.0];
  }
}
