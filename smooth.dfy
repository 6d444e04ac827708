/** A scalar that moves toward a target, either exponentially (a first-order
    IIR step per update) or linearly (a straight ramp from the value it had when
    the target was set), with an optional one-shot overshoot of the target.

    `SmoothState` is the value of all of the interpolator's fields; its member
    functions say what each operation does to them. `SmoothVal` is the object
    whose fields the server updates in place; each of its methods is proved to
    move its fields exactly as the matching `SmoothState` function says. */
module Smooth {
  import opened Numerics

  /** The guard added to the interpolation time before dividing by it in
      linear mode. */
  const Eps: real := 0.00000001

  /** `update_coeff`: the per-second decay `2 ** (-3 / time)`, or 0 when the
      time is 0 (the value then snaps to its target). */
  function CoeffFor(time: real, m: Maths): (c: real)
    ensures Lawful(m) ==> (c == 0.0 <==> time == 0.0)
    ensures Lawful(m) && time >= 0.0 ==> 0.0 <= c < 1.0
  {
    if time != 0.0 then
      assert Lawful(m) && time > 0.0 ==> -3.0 / time < 0.0;
      m.Pow(2.0, -3.0 / time)
    else 0.0
  }

  /** Linear mode: the fraction `a = clip(t / (time + 1e-8), 0, 1)` of the way
      from `init` to `target`. The result stays between the two, and it reaches
      the target exactly when `t` has reached `time + 1e-8`. */
  function LinearStep(init: real, target: real, t: real, time: real): (r: real)
    requires time + Eps != 0.0
    ensures Min(init, target) <= r <= Max(init, target)
    ensures time + Eps > 0.0 && init != target ==> (r == target <==> t >= time + Eps)
  {
    var a := Clip(t / (time + Eps), 0.0, 1.0);
    ConvexCombination(init, target, a);
    ClipReachesOne(t, time + Eps);
    (1.0 - a) * init + a * target
  }

  /** Exponential mode: `a * state + (1 - a) * target` with `a = coeff ** dt`.
      The distance to the target is scaled by `|a|`, so it never grows when
      `a` lies in [0, 1]. */
  function ExpStep(state: real, target: real, a: real): (r: real)
    ensures Abs(r - target) == Abs(a) * Abs(state - target)
    ensures 0.0 <= a <= 1.0 ==> Abs(r - target) <= Abs(state - target)
    ensures 0.0 <= a <= 1.0 ==> Min(state, target) <= r <= Max(state, target)
  {
    assert a * state + (1.0 - a) * target - target == a * (state - target);
    AbsProduct(a, state - target);
    FractionShrinks(a, Abs(state - target));
    ExpIsConvex(state, target, a);
    a * state + (1.0 - a) * target
  }

  lemma ConvexCombination(x: real, y: real, a: real)
    requires 0.0 <= a <= 1.0
    ensures Min(x, y) <= (1.0 - a) * x + a * y <= Max(x, y)
    ensures (1.0 - a) * x + a * y == y <==> (a == 1.0 || x == y)
  {
    var b, d := 1.0 - a, x - y;
    TowardEnd(x, y, a);
    ScaledByFraction(b, d);
    ZeroProduct(b, d);
    assert (1.0 - a) * x + a * y == y + b * d;
  }

  /** `(1-a)x + ay` is `y` moved by the fraction `1-a` of the way to `x`. */
  lemma TowardEnd(x: real, y: real, a: real)
    ensures (1.0 - a) * x + a * y == y + (1.0 - a) * (x - y)
  {}

  /** `ax + (1-a)y` is `y` moved by the fraction `a` of the way to `x`. */
  lemma TowardStart(x: real, y: real, a: real)
    ensures a * x + (1.0 - a) * y == y + a * (x - y)
  {}

  lemma ZeroProduct(b: real, d: real)
    ensures b * d == 0.0 <==> b == 0.0 || d == 0.0
  {
    if b != 0.0 && d != 0.0 {
      if b > 0.0 && d > 0.0 {
        PositiveProduct(b, d);
      } else if b > 0.0 {
        PositiveProduct(b, -d);
        assert b * -d == -(b * d);
      } else if d > 0.0 {
        PositiveProduct(-b, d);
        assert -b * d == -(b * d);
      } else {
        PositiveProduct(-b, -d);
        assert -b * -d == b * d;
      }
    }
  }

  lemma ExpIsConvex(x: real, y: real, a: real)
    ensures 0.0 <= a <= 1.0 ==> Min(x, y) <= a * x + (1.0 - a) * y <= Max(x, y)
  {
    if 0.0 <= a <= 1.0 {
      var d := x - y;
      TowardStart(x, y, a);
      ScaledByFraction(a, d);
      var p := a * d;
      assert a * x + (1.0 - a) * y == y + p;
      assert d >= 0.0 ==> 0.0 <= p <= d;
      assert d <= 0.0 ==> d <= p <= 0.0;
    }
  }

  lemma FractionShrinks(a: real, x: real)
    requires x >= 0.0
    ensures 0.0 <= a <= 1.0 ==> Abs(a) * x <= x
  {
    if 0.0 <= a <= 1.0 {
      ScaledByFraction(a, x);
    }
  }

  lemma ClipReachesOne(t: real, d: real)
    requires d != 0.0
    ensures d > 0.0 ==> (Clip(t / d, 0.0, 1.0) == 1.0 <==> t >= d)
  {
    if d > 0.0 {
      QuotientAtLeastOne(t, d);
    }
  }

  lemma QuotientAtLeastOne(t: real, d: real)
    requires d > 0.0
    ensures t / d >= 1.0 <==> t >= d
  {
    var q := t / d;
    assert q * d == t;
    if q >= 1.0 {
      NonnegativeProduct(q - 1.0, d);
    } else {
      PositiveProduct(1.0 - q, d);
    }
  }

  /** All fields of a `SmoothVal`: `state` is the current value, `targetState`
      where it is heading, `initState` where the current transition started,
      `t` the time since then, `time` the interpolation time and `coeff` the
      exponential decay derived from it. */
  datatype SmoothState = SmoothState(
    state: real,
    targetState: real,
    initState: real,
    t: real,
    time: real,
    coeff: real,
    linear: bool,
    overshoot: real,
    overshot: bool)
  {
    /** The target `update` moves toward: the overshot target
        `targetState * overshoot` until the overshoot has happened. */
    function EffectiveTarget(): real
    {
      if overshoot > 0.0 && !overshot then targetState * overshoot else targetState
    }

    /** `set_time`: a new interpolation time and its recomputed coefficient;
        nothing else changes. */
    function SetTime(time': real, m: Maths): (r: SmoothState)
      ensures r.time == time' && r.coeff == CoeffFor(time', m)
      ensures r == this.(time := r.time, coeff := r.coeff)
    {
      this.(time := time', coeff := CoeffFor(time', m))
    }

    /** `set`: head for `x`, starting the transition from the current value;
        the time, the coefficient and the overshoot flag are kept. */
    function Set(x: real): (r: SmoothState)
      ensures r.targetState == x && r.initState == state && r.t == 0.0
      ensures r.state == state && r.time == time && r.coeff == coeff
      ensures r.overshot == overshot && r.linear == linear && r.overshoot == overshoot
    {
      this.(targetState := x, initState := state, t := 0.0)
    }

    /** `jump`: be at `x` at once. The time becomes 0 but the coefficient is
        NOT recomputed, and the overshoot flag is kept. */
    function Jump(x: real): (r: SmoothState)
      ensures r.state == x && r.initState == x && r.targetState == x
      ensures r.t == 0.0 && r.time == 0.0 && r.coeff == coeff
      ensures r.overshot == overshot && r.linear == linear && r.overshoot == overshoot
    {
      this.(state := x, initState := x, targetState := x, t := 0.0, time := 0.0)
    }

    /** `set_with_time`: a zero time is a jump; any other time is a `set`
        followed by `set_time`. */
    function SetWithTime(x: real, time': real, m: Maths): (r: SmoothState)
      ensures time' == 0.0 ==> r == Jump(x)
      ensures time' != 0.0 ==> r == Set(x).SetTime(time', m)
    {
      if time' == 0.0 then Jump(x) else Set(x).SetTime(time', m)
    }

    /** `update(dt)`. Python raises ZeroDivisionError in linear mode when
        `time + 1e-8` is 0, so that case is excluded. */
    function Update(dt: real, m: Maths): (r: SmoothState)
      requires linear ==> time + Eps != 0.0
      ensures r.t == t + dt
      ensures r.overshot == (overshot || (overshoot > 0.0
                && Abs(state - targetState * overshoot) < state * overshoot / 10.0))
      ensures linear ==> r.state == LinearStep(initState, EffectiveTarget(), t, time)
      ensures !linear ==> r.state == ExpStep(state, EffectiveTarget(), m.Pow(coeff, dt))
      ensures r == this.(state := r.state, t := r.t, overshot := r.overshot)
    {
      this.(state := NextState(dt, m), t := t + dt, overshot := NextOvershot())
    }

    /** The value after one update, in the current mode. */
    function NextState(dt: real, m: Maths): real
      requires linear ==> time + Eps != 0.0
    {
      if linear then LinearStep(initState, EffectiveTarget(), t, time)
      else ExpStep(state, EffectiveTarget(), m.Pow(coeff, dt))
    }

    /** The overshoot test of `update`: with an overshoot pending, the flag
        is set once the value comes within a tenth of `state * overshoot` of
        the overshot target; once set it stays. */
    function NextOvershot(): (b: bool)
      ensures overshot ==> b
      ensures overshoot <= 0.0 || state <= 0.0 ==> b == overshot
      ensures overshoot > 0.0 && state > 0.0 && state == targetState * overshoot ==> b
    {
      overshot || (overshoot > 0.0 && Abs(state - targetState * overshoot) < state * overshoot / 10.0)
    }
  }

  /** The fields right after construction: value, target and start all equal
      `init`, no time has elapsed, nothing has overshot, and the coefficient is
      0 exactly when the interpolation time is 0. */
  function Initial(init: real, initTime: real, linear: bool, overshoot: real, m: Maths): (r: SmoothState)
    ensures r.state == init && r.targetState == init && r.initState == init
    ensures r.t == 0.0 && !r.overshot && r.time == initTime
    ensures Lawful(m) ==> (r.coeff == 0.0 <==> initTime == 0.0)
  {
    SmoothState(init, init, init, 0.0, initTime, CoeffFor(initTime, m), linear, overshoot, false)
  }

  /** After `jump(x)`, and with no overshoot pending, any `update` leaves the
      value at `x` in either mode, whatever `dt` and the coefficient are. */
  lemma JumpThenUpdateStays(s: SmoothState, x: real, dt: real, m: Maths)
    requires !(s.overshoot > 0.0 && !s.overshot)
    ensures s.Jump(x).Update(dt, m).state == x
  {
    var j := s.Jump(x);
    assert j.EffectiveTarget() == x;
    if j.linear {
      var a := Clip(j.t / (j.time + Eps), 0.0, 1.0);
      assert (1.0 - a) * x + a * x == x;
    } else {
      var a := m.Pow(j.coeff, dt);
      assert a * x + (1.0 - a) * x == x;
    }
  }

  /** Once overshot, always overshot: neither `set`, `jump`, `set_time` nor
      `update` clears the flag. */
  lemma OvershotIsSticky(s: SmoothState, x: real, time: real, dt: real, m: Maths)
    requires s.overshot
    requires s.linear ==> s.time + Eps != 0.0
    ensures s.Set(x).overshot && s.Jump(x).overshot && s.SetTime(time, m).overshot
    ensures s.SetWithTime(x, time, m).overshot && s.Update(dt, m).overshot
  {}

  /** In exponential mode, with a decay coefficient in [0, 1] and `dt >= 0`
      (true whenever every time handed to the value was non-negative), an
      update never moves the value away from the target it is heading for. */
  lemma ExpDistanceNeverGrows(s: SmoothState, dt: real, m: Maths)
    requires Lawful(m) && !s.linear
    requires 0.0 <= s.coeff <= 1.0 && dt >= 0.0
    ensures Abs(s.Update(dt, m).state - s.EffectiveTarget()) <= Abs(s.state - s.EffectiveTarget())
  {
    assert 0.0 <= m.Pow(s.coeff, dt) <= 1.0;
  }

  /** Linear mode: an update lands between the transition's start and its
      target, and lands exactly on the target only once `t` (the elapsed time
      before this update) has reached `time + 1e-8`. */
  lemma LinearUpdateIsConvex(s: SmoothState, dt: real, m: Maths)
    requires s.linear && s.time + Eps > 0.0
    ensures Min(s.initState, s.EffectiveTarget()) <= s.Update(dt, m).state
              <= Max(s.initState, s.EffectiveTarget())
    ensures s.initState != s.EffectiveTarget() ==>
              (s.Update(dt, m).state == s.EffectiveTarget() <==> s.t >= s.time + Eps)
  {}

  /** The interpolator object. Its methods change its fields exactly as the
      `SmoothState` function of the same name says. */
  class SmoothVal {
    var state: real
    var targetState: real
    var initState: real
    var t: real
    var time: real
    var coeff: real
    var linear: bool
    var overshoot: real
    var overshot: bool

    /** The current values of all fields. */
    function Snapshot(): SmoothState
      reads this
    {
      SmoothState(state, targetState, initState, t, time, coeff, linear, overshoot, overshot)
    }

    constructor (init: real, initTime: real, linear: bool, overshoot: real, m: Maths)
      ensures Snapshot() == Initial(init, initTime, linear, overshoot, m)
    {
      state := init;
      targetState := init;
      this.linear := linear;
      time := initTime;
      initState := init;
      t := 0.0;
      coeff := CoeffFor(initTime, m);
      this.overshoot := overshoot;
      overshot := false;
    }

    /** The copy `copy.deepcopy` makes: a new object with the same fields. */
    constructor Clone(other: SmoothVal)
      ensures Snapshot() == other.Snapshot()
    {
      state := other.state;
      targetState := other.targetState;
      initState := other.initState;
      t := other.t;
      time := other.time;
      coeff := other.coeff;
      linear := other.linear;
      overshoot := other.overshoot;
      overshot := other.overshot;
    }

    method UpdateCoeff(m: Maths)
      modifies this
      ensures Snapshot() == old(Snapshot()).(coeff := CoeffFor(time, m))
    {
      if time != 0.0 {
        coeff := m.Pow(2.0, -3.0 / time);
      } else {
        coeff := 0.0;
      }
    }

    method SetTime(time': real, m: Maths)
      modifies this
      ensures Snapshot() == old(Snapshot()).SetTime(time', m)
    {
      time := time';
      UpdateCoeff(m);
    }

    method Set(x: real)
      modifies this
      ensures Snapshot() == old(Snapshot()).Set(x)
    {
      targetState := x;
      initState := state;
      t := 0.0;
    }

    method SetWithTime(x: real, time': real, m: Maths)
      modifies this
      ensures Snapshot() == old(Snapshot()).SetWithTime(x, time', m)
    {
      if time' == 0.0 {
        Jump(x);
      } else {
        Set(x);
        SetTime(time', m);
      }
    }

    method Jump(x: real)
      modifies this
      ensures Snapshot() == old(Snapshot()).Jump(x)
    {
      state := x;
      initState := state;
      targetState := x;
      t := 0.0;
      time := 0.0;
    }

    method Update(dt: real, m: Maths)
      requires linear ==> time + Eps != 0.0
      modifies this
      ensures Snapshot() == old(Snapshot()).Update(dt, m)
    {
      ghost var before := Snapshot();
      var target := targetState;
      if overshoot > 0.0 && !overshot {
        target := targetState * overshoot;
        if Abs(state - target) < state * overshoot / 10.0 {
          overshot := true;
        }
      }
      assert overshot == before.NextOvershot();
      var next: real;
      if linear {
        next := LinearStep(initState, target, t, time);
      } else {
        next := ExpStep(state, target, m.Pow(coeff, dt));
      }
      assert target == before.EffectiveTarget();
      assert next == before.NextState(dt, m);
      state := next;
      t := t + dt;
    }
  }
}
