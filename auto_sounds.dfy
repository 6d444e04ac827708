/** The automation engine and the burst generator.

    An automation drives one attribute (gain, filter cutoff, time, ...) from a
    proxy: a sine oscillator, a spline through given points, or a random walk
    between two bounds, optionally with its own speed modulated by a second
    automation. Automations are values: the group that runs them stores its
    own copy of each (`copy.deepcopy`), so here every update returns a new
    automation. A burst triggers sounds from a pool at random, switching
    between two modes with a two-state Markov chain. */
module AutoSounds {
  import opened Wrappers
  import opened Numerics
  import Smooth
  import Spline

  /** The two-state Gilbert chain, one tick of length `dt`. The per-second
      switching probabilities are converted to the tick as `1-(1-p)**dt`. The
      two tests are sequential, so a chain in state 0 can go to 1 and back to
      0 within one tick. `u1` and `u2` are the two `random.random()` draws,
      each used only when its test is reached. */
  function GilbertStep(state: int, p1: real, p2: real, dt: real, u1: Draw, u2: Draw, m: Maths): (r: int)
    ensures state == 0 || state == 1 ==> r == 0 || r == 1
    ensures state != 0 && state != 1 ==> r == state
  {
    var q1 := 1.0 - m.Pow(1.0 - p1, dt);
    var q2 := 1.0 - m.Pow(1.0 - p2, dt);
    var s := if state == 0 && u1 < q1 then 1 else state;
    if s == 1 && u2 < q2 then 0 else s
  }

  /** With both switching probabilities 1 every tick ends in state 0: from 0
      the chain goes to 1 and straight back. */
  lemma GilbertCertainSwitchEndsAtZero(state: int, dt: real, u1: Draw, u2: Draw, m: Maths)
    requires Lawful(m) && dt > 0.0 && (state == 0 || state == 1)
    ensures GilbertStep(state, 1.0, 1.0, dt, u1, u2, m) == 0
  {
    assert m.Pow(0.0, dt) == 0.0;
  }

  /** With `p1 = 0` a chain in state 0 never leaves it. */
  lemma GilbertNeverLeavesZero(p2: real, dt: real, u1: Draw, u2: Draw, m: Maths)
    requires Lawful(m)
    ensures GilbertStep(0, 0.0, p2, dt, u1, u2, m) == 0
  {
    assert m.Pow(1.0, dt) == 1.0;
  }

  /** `Gilbert(p1, p2)`. */
  class Gilbert {
    var p1: real
    var p2: real
    var state: int

    constructor (p1: real, p2: real)
      ensures this.p1 == p1 && this.p2 == p2 && state == 0
    {
      this.p1 := p1;
      this.p2 := p2;
      state := 0;
    }

    method Update(dt: real, u1: Draw, u2: Draw, m: Maths)
      modifies this
      ensures state == GilbertStep(old(state), p1, p2, dt, u1, u2, m)
      ensures p1 == old(p1) && p2 == old(p2)
    {
      var q1 := 1.0 - m.Pow(1.0 - p1, dt);
      var q2 := 1.0 - m.Pow(1.0 - p2, dt);
      if state == 0 {
        if u1 < q1 {
          state := 1;
        }
      }
      if state == 1 {
        if u2 < q2 {
          state := 0;
        }
      }
    }
  }

  /** The proxies. `NoProxy` is an automation whose type is none of the three:
      Python never sets its proxy, so updating it raises. */
  datatype Proxy =
    | Sine(frequency: real, lo: real, hi: real, phase: real, state: real)
    | SplineProxy(points: seq<real>, rate: real, loop: bool, shape: Spline.Shape, phase: real, state: real)
    | RandomWalk(lo: real, hi: real, rate: real, val: Smooth.SmoothState, state: real)
    | NoProxy
  {
    /** `np.sum(np.abs(range[0] - range[1]))`. */
    function Span(): real
      requires RandomWalk?
    {
      Abs(lo - hi)
    }

    /** A random walk retargets once within a hundredth of the span. */
    function Threshold(): real
      requires RandomWalk?
    {
      Span() / 100.0
    }
  }

  /** The spline through scalar points: one row per point (`pts[:, None]`). */
  function PointSpline(points: seq<real>, shape: Spline.Shape): (sp: Spline.CardinalSpline)
    ensures sp.Valid() && sp.dim == 1 && |sp.pts| == |points|
    ensures forall i :: 0 <= i < |points| ==> sp.pts[i] == [points[i]]
  {
    Spline.CardinalSpline(seq(|points|, i requires 0 <= i < |points| => [points[i]]), 1, shape)
  }

  /** `np.sin(phase * frequency)`. */
  function Wave(m: Maths, phase: real, frequency: real): (w: real)
    ensures Lawful(m) ==> -1.0 <= w <= 1.0
  {
    m.Sin(phase * frequency)
  }

  /** `SineAutomation.update(dt)`: the phase advances by `2*pi*dt` and the
      state is `sin(phase*frequency)*(max-min) + (min+max)/2`. */
  function SineStep(p: Proxy, dt: real, m: Maths): (r: Proxy)
    requires p.Sine?
    ensures r.Sine? && r.phase == p.phase + dt * 2.0 * m.pi
    ensures r.frequency == p.frequency && r.lo == p.lo && r.hi == p.hi
  {
    var phase := p.phase + dt * 2.0 * m.pi;
    Sine(p.frequency, p.lo, p.hi, phase, Wave(m, phase, p.frequency) * (p.hi - p.lo) + (p.lo + p.hi) / 2.0)
  }

  /** The sine proxy swings by the full `max - min` around the midpoint, so its
      range is twice `[min, max]` wide. */
  lemma SineAmplitude(p: Proxy, dt: real, m: Maths)
    requires p.Sine? && Lawful(m)
    ensures Abs(SineStep(p, dt, m).state - (p.lo + p.hi) / 2.0) <= Abs(p.hi - p.lo)
  {
    var r := SineStep(p, dt, m);
    var w := Wave(m, r.phase, p.frequency);
    var d := p.hi - p.lo;
    assert r.state - (p.lo + p.hi) / 2.0 == w * d;
    ScaledBound(w, d);
  }

  /** `SplineAutomation.update(dt)`: advance the phase by `rate*dt`, evaluate
      the spline there (`None`: IndexError), then reset the phase to 0 when
      looping and past the last point. */
  function SplineStep(p: Proxy, dt: real): (r: Option<Proxy>)
    requires p.SplineProxy?
    ensures r.Some? ==> r.value.SplineProxy? && r.value.points == p.points && r.value.rate == p.rate &&
                        r.value.loop == p.loop && r.value.shape == p.shape
    ensures r.Some? ==> PointSpline(p.points, p.shape).Call(p.phase + p.rate * dt) == Some([r.value.state])
    ensures r.Some? ==> (r.value.phase ==
              if p.loop && p.phase + p.rate * dt >= |p.points| as real then 0.0 else p.phase + p.rate * dt)
  {
    var phase := p.phase + p.rate * dt;
    var v := PointSpline(p.points, p.shape).Call(phase);
    if v.None? then None
    else
      assert v.value == [v.value[0]];
      var phase' := if phase >= |p.points| as real && p.loop then 0.0 else phase;
      Some(SplineProxy(p.points, p.rate, p.loop, p.shape, phase', v.value[0]))
  }

  /** A looping spline played forward keeps its phase inside `[0, len(pts))`
      and never raises. */
  lemma LoopingSplineStaysInRange(p: Proxy, dt: real)
    requires p.SplineProxy? && p.loop && |p.points| >= 1
    requires 0.0 <= p.phase && p.rate >= 0.0 && dt >= 0.0
    ensures SplineStep(p, dt).Some?
    ensures 0.0 <= SplineStep(p, dt).value.phase < |p.points| as real
  {
    NonnegativeProduct(p.rate, dt);
  }

  /** A random walk that starts at `uniform(lo, hi)` with a zero-time
      (snapping) smoother. */
  function NewRandomWalk(lo: real, hi: real, rate: real, u: Draw, m: Maths): (p: Proxy)
    ensures p.RandomWalk? && p.lo == lo && p.hi == hi && p.rate == rate
    ensures Min(lo, hi) <= p.state <= Max(lo, hi) && p.state == p.val.state
    ensures p.val == Smooth.Initial(p.state, 0.0, false, 0.0, m)
  {
    var x := Uniform(lo, hi, u);
    RandomWalk(lo, hi, rate, Smooth.Initial(x, 0.0, false, 0.0, m), x)
  }

  /** The time a random walk takes to head from `start` to `end`:
      `|end - start| / span * rate`, so a full-span move takes `rate`. */
  function RetargetTime(p: Proxy, start: real, end: real): (time: real)
    requires p.RandomWalk? && p.Span() != 0.0
    ensures Abs(end - start) == p.Span() ==> time == p.rate
    ensures p.rate >= 0.0 ==> time >= 0.0
  {
    Abs(end - start) / p.Span() * p.rate
  }

  /** `RandomAutomation.update(dt)`: update the smoother; once within the
      threshold of its target, pick a new target `end = uniform(lo, hi)` and
      head there in time `|end - start| / span * rate`. `None` is the
      ZeroDivisionError a linear smoother with time `-1e-8` would raise. */
  function RandomStep(p: Proxy, dt: real, u: Draw, m: Maths): (r: Option<Proxy>)
    requires p.RandomWalk?
    ensures r.Some? ==> r.value.RandomWalk? && r.value.state == r.value.val.state
    ensures r.Some? ==> r.value.lo == p.lo && r.value.hi == p.hi && r.value.rate == p.rate
    ensures r.None? <==> p.val.linear && p.val.time + Smooth.Eps == 0.0
    ensures r.Some? && Abs(p.val.Update(dt, m).state - p.val.Update(dt, m).targetState) >= p.Threshold() ==>
              r.value.val == p.val.Update(dt, m)
    ensures r.Some? && Abs(p.val.Update(dt, m).state - p.val.Update(dt, m).targetState) < p.Threshold() ==>
              r.value.val.targetState == Uniform(p.lo, p.hi, u) &&
              r.value.val.linear == p.val.linear
    ensures r.Some? && Abs(p.val.Update(dt, m).state - p.val.Update(dt, m).targetState) < p.Threshold() ==>
              r.value.val == p.val.Update(dt, m).SetWithTime(Uniform(p.lo, p.hi, u),
                RetargetTime(p, p.val.Update(dt, m).state, Uniform(p.lo, p.hi, u)), m)
  {
    var v := p.val;
    if v.linear && v.time + Smooth.Eps == 0.0 then None
    else
      var v' := v.Update(dt, m);
      if Abs(v'.state - v'.targetState) < p.Threshold() then
        var end := Uniform(p.lo, p.hi, u);
        var v'' := v'.SetWithTime(end, RetargetTime(p, v'.state, end), m);
        Some(RandomWalk(p.lo, p.hi, p.rate, v'', v''.state))
      else
        Some(RandomWalk(p.lo, p.hi, p.rate, v', v'.state))
  }

  /** The smoother of a random walk stays exponential, without overshoot,
      with a decay coefficient in [0, 1], and with its value and its target
      inside the range. */
  ghost predicate WalkInRange(p: Proxy, m: Maths)
    requires p.RandomWalk?
  {
    var v := p.val;
    !v.linear && v.overshoot == 0.0 && 0.0 <= v.coeff <= 1.0 &&
    Min(p.lo, p.hi) <= v.state <= Max(p.lo, p.hi) &&
    Min(p.lo, p.hi) <= v.targetState <= Max(p.lo, p.hi)
  }

  /** A new random walk is in range, and every update with `dt >= 0` and a
      non-negative rate keeps it there: the walk never leaves `[lo, hi]`. */
  lemma {:induction false} RandomWalkStaysInRange(p: Proxy, dt: real, u: Draw, m: Maths)
    requires p.RandomWalk? && Lawful(m) && WalkInRange(p, m)
    requires dt >= 0.0 && p.rate >= 0.0
    ensures RandomStep(p, dt, u, m).Some?
    ensures WalkInRange(RandomStep(p, dt, u, m).value, m)
    ensures Min(p.lo, p.hi) <= RandomStep(p, dt, u, m).value.state <= Max(p.lo, p.hi)
  {
    var v := p.val;
    assert 0.0 <= m.Pow(v.coeff, dt) <= 1.0;
    var v' := v.Update(dt, m);
    assert v.EffectiveTarget() == v.targetState;
    if Abs(v'.state - v'.targetState) < p.Threshold() {
      var end := Uniform(p.lo, p.hi, u);
      var time := Abs(end - v'.state) / p.Span() * p.rate;
      assert p.Span() > 0.0;
      NonnegativeProduct(Abs(end - v'.state) / p.Span(), p.rate);
      assert time >= 0.0;
    }
  }

  lemma NewRandomWalkInRange(lo: real, hi: real, rate: real, u: Draw, m: Maths)
    requires Lawful(m)
    ensures WalkInRange(NewRandomWalk(lo, hi, rate, u, m), m)
  {}

  /** One proxy update. `None` is an exception escaping it. */
  function ProxyStep(p: Proxy, dt: real, u: Draw, m: Maths): (r: Option<Proxy>)
    ensures r.Some? ==> r.value.Sine? == p.Sine? && r.value.SplineProxy? == p.SplineProxy? &&
                        r.value.RandomWalk? == p.RandomWalk?
    ensures p.NoProxy? ==> r.None?
    ensures p.Sine? ==> r == Some(SineStep(p, dt, m))
  {
    match p
    case Sine(_, _, _, _, _) => Some(SineStep(p, dt, m))
    case SplineProxy(_, _, _, _, _, _) => SplineStep(p, dt)
    case RandomWalk(_, _, _, _, _) => RandomStep(p, dt, u, m)
    case NoProxy => None
  }

  /** An automation: a proxy driving attribute `attr`, optionally with a
      time modulator. */
  datatype Automation = Automation(name: string, attr: string, proxy: Proxy, time: Option<Automation>, state: real)

  /** How deeply time modulators are nested. */
  function Depth(a: Automation): nat
  {
    if a.time.None? then 0 else 1 + Depth(a.time.value)
  }

  /** The time step a modulated proxy takes: `dt * self.time.state`. */
  function Modulated(dt: real, modulation: real): real
  {
    dt * modulation
  }

  /** `Automation.update(dt)`. Without a modulator the proxy advances by `dt`;
      with one, the modulator advances by `dt` first and the proxy then
      advances by `dt` times the modulator's new state. The automation's
      state is then the proxy's. `draws[k]` is the draw used by the proxy at
      nesting depth `k`. Name, attribute and nesting never change. */
  function Step(a: Automation, dt: real, draws: seq<Draw>, m: Maths): (r: Option<Automation>)
    requires |draws| > Depth(a)
    ensures r.Some? ==> r.value.name == a.name && r.value.attr == a.attr &&
                        r.value.time.Some? == a.time.Some? && Depth(r.value) == Depth(a)
    ensures r.Some? ==> !r.value.proxy.NoProxy? && r.value.state == r.value.proxy.state
    ensures r.Some? && a.time.None? ==> ProxyStep(a.proxy, dt, draws[0], m) == Some(r.value.proxy)
    ensures r.Some? && a.time.Some? ==>
              Step(a.time.value, dt, draws[1..], m) == r.value.time &&
              ProxyStep(a.proxy, Modulated(dt, r.value.time.value.state), draws[0], m) == Some(r.value.proxy)
    decreases a
  {
    if a.time.None? then
      var p := ProxyStep(a.proxy, dt, draws[0], m);
      if p.None? || p.value.NoProxy? then None
      else Some(a.(proxy := p.value, state := p.value.state))
    else
      var t := Step(a.time.value, dt, draws[1..], m);
      if t.None? then None
      else
        var p := ProxyStep(a.proxy, Modulated(dt, t.value.state), draws[0], m);
        if p.None? || p.value.NoProxy? then None
        else Some(a.(time := Some(t.value), proxy := p.value, state := p.value.state))
  }

  /** A modulator that reads 1 leaves the proxy running at its own speed:
      the modulated update of the proxy is the unmodulated one. */
  lemma {:induction false} UnitModulationIsTransparent(a: Automation, dt: real, draws: seq<Draw>, m: Maths)
    requires a.time.Some? && |draws| > Depth(a)
    requires var t := Step(a.time.value, dt, draws[1..], m); t.Some? && t.value.state == 1.0
    ensures Step(a, dt, draws, m).Some? <==> ProxyStep(a.proxy, dt, draws[0], m).Some?
    ensures Step(a, dt, draws, m).Some? ==>
              Step(a, dt, draws, m).value.proxy == ProxyStep(a.proxy, dt, draws[0], m).value
  {
    assert dt * 1.0 == dt;
  }

  /** A modulator that reads 0 freezes a sine or spline proxy's phase. */
  lemma {:induction false} ZeroModulationFreezesPhase(a: Automation, dt: real, draws: seq<Draw>, m: Maths)
    requires a.time.Some? && |draws| > Depth(a)
    requires a.proxy.Sine? || a.proxy.SplineProxy?
    requires var t := Step(a.time.value, dt, draws[1..], m); t.Some? && t.value.state == 0.0
    requires a.proxy.SplineProxy? ==> !a.proxy.loop
    ensures Step(a, dt, draws, m).Some? ==> Step(a, dt, draws, m).value.proxy.phase == a.proxy.phase
  {
    assert dt * 0.0 == 0.0;
    if a.proxy.Sine? {
      assert 0.0 * 2.0 * m.pi == 0.0;
    } else {
      assert a.proxy.rate * 0.0 == 0.0;
    }
  }

  /** The parameters of each proxy type, with `None` for an omitted optional
      key. */
  datatype ProxySpec =
    | RandomSpec(lo: real, hi: real, randomRate: real)
    | SineSpec(frequency: real, min: real, max: real, phase: Option<real>)
    | SplineSpec(points: seq<real>, rate: Option<real>, loop: Option<bool>,
                 tension: Option<real>, continuity: Option<real>, bias: Option<real>)
    | OtherSpec

  /** An automation spec; `name` and `attr` are optional keys, `time` the
      optional modulator spec. */
  datatype AutomationSpec = AutomationSpec(name: Option<string>, attr: Option<string>, proxy: ProxySpec, time: Option<AutomationSpec>)

  function SpecDepth(s: AutomationSpec): nat
  {
    if s.time.None? then 0 else 1 + SpecDepth(s.time.value)
  }

  function OrElse<T>(o: Option<T>, default: T): T
  {
    if o.Some? then o.value else default
  }

  /** The proxy a spec builds, with the documented defaults: sine phase 0;
      spline rate 1, no loop, tension -0.5, continuity 0, bias 0. A spline
      with no points fails (`None`): `self.pts[0]` raises IndexError while
      the proxy is built. */
  function NewProxy(s: ProxySpec, u: Draw, m: Maths): (r: Option<Proxy>)
    ensures r.None? <==> s.SplineSpec? && |s.points| == 0
    ensures s.SineSpec? ==> r == Some(Sine(s.frequency, s.min, s.max, OrElse(s.phase, 0.0), 0.0))
    ensures s.SplineSpec? && r.Some? ==> (r.value.SplineProxy? && r.value.points == s.points &&
              r.value.phase == 0.0 && r.value.state == 0.0 &&
              r.value.rate == OrElse(s.rate, 1.0) && r.value.loop == OrElse(s.loop, false) &&
              r.value.shape == Spline.Shape(OrElse(s.tension, -0.5), OrElse(s.continuity, 0.0), OrElse(s.bias, 0.0)))
    ensures s.RandomSpec? ==> r == Some(NewRandomWalk(s.lo, s.hi, s.randomRate, u, m))
    ensures s.OtherSpec? ==> r == Some(NoProxy)
  {
    match s
    case RandomSpec(lo, hi, rate) => Some(NewRandomWalk(lo, hi, rate, u, m))
    case SineSpec(f, lo, hi, phase) => Some(Sine(f, lo, hi, OrElse(phase, 0.0), 0.0))
    case SplineSpec(pts, rate, loop, t, c, b) =>
      if |pts| == 0 then None
      else
        Some(SplineProxy(pts, OrElse(rate, 1.0), OrElse(loop, false),
                         Spline.Shape(OrElse(t, -0.5), OrElse(c, 0.0), OrElse(b, 0.0)), 0.0, 0.0))
    case OtherSpec => Some(NoProxy)
  }

  /** No spec in the chain of `time` modulators is a spline without
      points. */
  predicate NoEmptySpline(s: AutomationSpec)
    decreases s
  {
    !(s.proxy.SplineSpec? && |s.proxy.points| == 0) && (s.time.Some? ==> NoEmptySpline(s.time.value))
  }

  /** `Automation(spec)`: name defaults to `"<unnamed>"`, attribute to
      `"time"`, the state starts at 0, and a `time` key builds the modulator
      recursively. Construction fails exactly when a spline without points
      appears anywhere in the chain. */
  function FromSpec(s: AutomationSpec, draws: seq<Draw>, m: Maths): (r: Option<Automation>)
    requires |draws| > SpecDepth(s)
    ensures r.Some? <==> NoEmptySpline(s)
    ensures r.Some? ==> r.value.name == OrElse(s.name, "<unnamed>") && r.value.attr == OrElse(s.attr, "time") &&
                        r.value.state == 0.0 && Depth(r.value) == SpecDepth(s)
    ensures r.Some? ==> Some(r.value.proxy) == NewProxy(s.proxy, draws[0], m)
    decreases s
  {
    var proxy := NewProxy(s.proxy, draws[0], m);
    if proxy.None? then None
    else if s.time.None? then Some(Automation(OrElse(s.name, "<unnamed>"), OrElse(s.attr, "time"), proxy.value, None, 0.0))
    else
      var t := FromSpec(s.time.value, draws[1..], m);
      if t.None? then None
      else Some(Automation(OrElse(s.name, "<unnamed>"), OrElse(s.attr, "time"), proxy.value, t, 0.0))
  }

  /** The sum of `state` over the automations named in `keys` whose attribute
      is `attr`. */
  ghost function AttrSum(auts: map<string, Automation>, keys: set<string>, attr: string): real
    requires keys <= auts.Keys
    decreases keys
  {
    if keys == {} then 0.0
    else
      var k :| k in keys;
      (if auts[k].attr == attr then auts[k].state else 0.0) + AttrSum(auts, keys - {k}, attr)
  }

  /** The sum does not depend on the order the keys are taken in: any one key
      can be split off. */
  lemma {:induction false} AttrSumSplit(auts: map<string, Automation>, keys: set<string>, attr: string, j: string)
    requires keys <= auts.Keys && j in keys
    ensures AttrSum(auts, keys, attr) ==
            (if auts[j].attr == attr then auts[j].state else 0.0) + AttrSum(auts, keys - {j}, attr)
    decreases keys
  {
    var k :| k in keys && AttrSum(auts, keys, attr) ==
      (if auts[k].attr == attr then auts[k].state else 0.0) + AttrSum(auts, keys - {k}, attr);
    if k != j {
      AttrSumSplit(auts, keys - {k}, attr, j);
      AttrSumSplit(auts, keys - {j}, attr, k);
      assert keys - {k} - {j} == keys - {j} - {k};
    }
  }

  /** No automation in `keys` drives `attr`: the sum is 0. */
  lemma {:induction false} AttrSumAbsent(auts: map<string, Automation>, keys: set<string>, attr: string)
    requires keys <= auts.Keys
    requires forall k :: k in keys ==> auts[k].attr != attr
    ensures AttrSum(auts, keys, attr) == 0.0
    decreases keys
  {
    if keys != {} {
      var j :| j in keys;
      AttrSumSplit(auts, keys, attr, j);
      AttrSumAbsent(auts, keys - {j}, attr);
    }
  }

  /** The table `update` leaves in `attrs`: one entry per attribute driven by
      some automation in `keys`, holding the sum of their states. */
  ghost function AttrTable(auts: map<string, Automation>, keys: set<string>): map<string, real>
    requires keys <= auts.Keys
  {
    map a | a in (set k | k in keys :: auts[k].attr) :: AttrSum(auts, keys, a)
  }

  /** Every automation of the group, updated by one `Step`. */
  ghost function StepAll(auts: map<string, Automation>, dt: real, draws: map<string, seq<Draw>>, m: Maths)
    : map<string, Automation>
    requires forall k :: k in auts ==> k in draws && |draws[k]| > Depth(auts[k]) && Step(auts[k], dt, draws[k], m).Some?
  {
    map k | k in auts :: Step(auts[k], dt, draws[k], m).value
  }

  /** The automation named `k` after one update of the group. */
  lemma StepAllAt(auts: map<string, Automation>, dt: real, draws: map<string, seq<Draw>>, m: Maths, k: string)
    requires forall k :: k in auts ==> k in draws && |draws[k]| > Depth(auts[k]) && Step(auts[k], dt, draws[k], m).Some?
    requires k in auts
    ensures k in StepAll(auts, dt, draws, m) && StepAll(auts, dt, draws, m)[k] == Step(auts[k], dt, draws[k], m).value
  {}

  /** The group part way through `update`: the automations named in `done`
      already updated, the others as they were. */
  ghost function Overlay(init: map<string, Automation>, final: map<string, Automation>, done: set<string>)
    : (r: map<string, Automation>)
    requires done <= init.Keys <= final.Keys
    ensures r.Keys == init.Keys
  {
    map k | k in init :: if k in done then final[k] else init[k]
  }

  lemma OverlayNone(init: map<string, Automation>, final: map<string, Automation>)
    requires init.Keys <= final.Keys
    ensures Overlay(init, final, {}) == init
  {}

  lemma OverlayStep(init: map<string, Automation>, final: map<string, Automation>, done: set<string>, k: string)
    requires done <= init.Keys <= final.Keys && k in init && k !in done
    ensures Overlay(init, final, done)[k] == init[k]
    ensures Overlay(init, final, done)[k := final[k]] == Overlay(init, final, done + {k})
  {}

  lemma OverlayAll(init: map<string, Automation>, final: map<string, Automation>, done: set<string>)
    requires done == init.Keys == final.Keys
    ensures Overlay(init, final, done) == final
  {}

  /** `attrs.get(attr, 0)`: an attribute's entry in the table, 0 when it has
      none. */
  function AttrValue(attrs: map<string, real>, attr: string): real
  {
    if attr in attrs then attrs[attr] else 0.0
  }

  /** `AutomationGroup`: named automations, and the per-attribute sums of
      their states as of the last `update`. */
  class AutomationGroup {
    var automations: map<string, Automation>
    var attrs: map<string, real>

    constructor ()
      ensures automations == map[] && attrs == map[]
    {
      automations := map[];
      attrs := map[];
    }

    /** The copy `copy.deepcopy` makes: a new group holding the same
        automations (which are values) and the same attribute table. */
    constructor Clone(other: AutomationGroup)
      ensures automations == other.automations && attrs == other.attrs
    {
      automations := other.automations;
      attrs := other.attrs;
    }

    /** `add(name, auto)`: store an independent copy, replacing any earlier
        automation of that name. */
    method Add(name: string, auto: Automation)
      modifies this
      ensures automations == old(automations)[name := auto] && attrs == old(attrs)
    {
      automations := automations[name := auto];
    }

    /** `remove(name)`: drop the automation; an unknown name changes nothing. */
    method Remove(name: string)
      modifies this
      ensures automations == old(automations) - {name} && attrs == old(attrs)
      ensures name !in old(automations) ==> automations == old(automations)
    {
      if name in automations {
        automations := automations - {name};
      }
    }

    /** `update(dt)`: update every automation and rebuild `attrs` from zero as
        the per-attribute sums of the updated states. A proxy that raises is
        excluded: the half-updated group Python would leave is not modelled. */
    method Update(dt: real, draws: map<string, seq<Draw>>, m: Maths)
      requires forall k :: k in automations ==>
                 k in draws && |draws[k]| > Depth(automations[k]) &&
                 Step(automations[k], dt, draws[k], m).Some?
      modifies this
      ensures automations == StepAll(old(automations), dt, draws, m)
      ensures attrs == AttrTable(automations, automations.Keys)
    {
      ghost var init := automations;
      ghost var final := StepAll(automations, dt, draws, m);
      ghost var done: set<string> := {};
      var auts := automations;
      var table: map<string, real> := map[];
      var todo := auts.Keys;
      OverlayNone(init, final);
      while todo != {}
        invariant todo !! done && todo + done == init.Keys
        invariant auts == Overlay(init, final, done)
        invariant table == AttrTable(final, done)
        decreases todo
      {
        var name :| name in todo;
        var a := Step(auts[name], dt, draws[name], m).value;
        StepAllAt(init, dt, draws, m, name);
        OverlayStep(init, final, done, name);
        auts := auts[name := a];
        table := Accumulate(table, a, final, done, name);
        todo := todo - {name};
        done := done + {name};
      }
      OverlayAll(init, final, done);
      automations := auts;
      attrs := table;
    }

    /** `get(attr)`: the attribute's sum, or 0 when no automation drives it. */
    method Get(attr: string) returns (v: real)
      ensures v == AttrValue(attrs, attr)
    {
      v := if attr in attrs then attrs[attr] else 0.0;
    }
  }

  /** The body of `update`'s loop on `attrs`: add the automation's state to
      its attribute's running sum, starting from 0 for a new attribute. */
  method Accumulate(t: map<string, real>, a: Automation, ghost auts: map<string, Automation>,
                    ghost done: set<string>, ghost k: string)
    returns (t': map<string, real>)
    requires done <= auts.Keys && k in auts && k !in done && auts[k] == a
    requires t == AttrTable(auts, done)
    ensures t' == AttrTable(auts, done + {k})
  {
    var prior := if a.attr in t then t[a.attr] else 0.0;
    AddToTable(auts, done, k);
    t' := t[a.attr := prior + a.state];
  }

  /** One loop step of `update`: adding automation `k`'s state to its
      attribute's entry turns the table over `done` into the table over
      `done + {k}`. */
  lemma AddToTable(auts: map<string, Automation>, done: set<string>, k: string)
    requires done <= auts.Keys && k in auts && k !in done
    ensures var t := AttrTable(auts, done);
            var a := auts[k].attr;
            t[a := (if a in t then t[a] else 0.0) + auts[k].state] == AttrTable(auts, done + {k})
  {
    var t := AttrTable(auts, done);
    var a := auts[k].attr;
    var t' := AttrTable(auts, done + {k});
    var keys := done + {k};
    forall b | b in t'
      ensures b in t[a := (if a in t then t[a] else 0.0) + auts[k].state]
      ensures t'[b] == t[a := (if a in t then t[a] else 0.0) + auts[k].state][b]
    {
      AttrSumSplit(auts, keys, b, k);
      assert keys - {k} == done;
      if b == a && a !in t {
        forall j | j in done
          ensures auts[j].attr != a
        {
          assert auts[j].attr in (set i | i in done :: auts[i].attr);
        }
        AttrSumAbsent(auts, done, a);
      }
      if b != a {
        var j :| j in keys && auts[j].attr == b;
        assert j in done;
      }
    }
  }

  /** The group's `attrs` after `update` give, for every attribute, the sum
      of the updated states of the automations driving it, and 0 for an
      attribute no automation drives. */
  lemma {:induction false} TableGivesSums(auts: map<string, Automation>, attr: string)
    ensures AttrValue(AttrTable(auts, auts.Keys), attr) == AttrSum(auts, auts.Keys, attr)
  {
    var t := AttrTable(auts, auts.Keys);
    if attr !in t {
      forall j | j in auts
        ensures auts[j].attr != attr
      {
        assert auts[j].attr in (set i | i in auts.Keys :: auts[i].attr);
      }
      AttrSumAbsent(auts, auts.Keys, attr);
    }
  }

  datatype Vec3 = Vec3(x: real, y: real, z: real)

  /** One state of a burst spec; `None` for an omitted key. */
  datatype BurstStateSpec = BurstStateSpec(rate: Option<real>, gain: Option<(real, real)>, space: Option<(Vec3, Vec3)>)

  datatype BurstSpec = BurstSpec(name: string, pool: string, switching: Option<(real, real)>, states: seq<BurstStateSpec>)

  /** What a burst update returns: nothing, a sound to trigger from a pool at
      a gain and position, or the IndexError of a mode with no listed state. */
  datatype BurstOutcome = Quiet | Emit(pool: string, gain: real, pos: Vec3) | NoSuchState

  /** The trigger test after the mode switch, as a pure function of the draws:
      the emission rate of mode `k` is converted to the tick length, and on a
      trigger the gain is drawn from the mode's range and clipped into
      `[-120, 0]` and the position is drawn from the box. */
  function Emission(pool: string, rates: seq<real>, mins: seq<real>, maxs: seq<real>, box: (Vec3, Vec3),
                    k: int, dt: real, uRate: Draw, uGain: Draw, uPos: (Draw, Draw, Draw), m: Maths)
    : (out: BurstOutcome)
    requires |rates| == |mins| == |maxs|
    ensures out == NoSuchState <==> !(-|rates| <= k < |rates|)
    ensures out.Emit? ==> out.pool == pool && -120.0 <= out.gain <= 0.0
    ensures out.Emit? ==>
              Min(box.0.x, box.1.x) <= out.pos.x <= Max(box.0.x, box.1.x) &&
              Min(box.0.y, box.1.y) <= out.pos.y <= Max(box.0.y, box.1.y) &&
              Min(box.0.z, box.1.z) <= out.pos.z <= Max(box.0.z, box.1.z)
  {
    var rate := PyIndex(rates, k);
    var lo := PyIndex(mins, k);
    var hi := PyIndex(maxs, k);
    if rate.None? || lo.None? || hi.None? then NoSuchState
    else
      var q := 1.0 - m.Pow(1.0 - rate.value, dt);
      if uRate < q then
        var gain := Clip(Uniform(lo.value, hi.value, uGain), -120.0, 0.0);
        Emit(pool, gain, Vec3(Uniform(box.0.x, box.1.x, uPos.0),
                              Uniform(box.0.y, box.1.y, uPos.1),
                              Uniform(box.0.z, box.1.z, uPos.2)))
      else Quiet
  }

  function RateOf(s: BurstStateSpec): real { OrElse(s.rate, 0.0) }
  function GainOf(s: BurstStateSpec): (real, real) { OrElse(s.gain, (0.0, 0.0)) }

  /** `Burst(spec)`. */
  class Burst {
    var name: string
    var poolName: string
    var switching: (real, real)
    var enabled: bool
    var rates: seq<real>
    var mins: seq<real>
    var maxs: seq<real>
    var box: (Vec3, Vec3)
    var gilbert: Gilbert

    ghost predicate Valid()
      reads this
    {
      |rates| == |mins| == |maxs|
    }

    /** Starts disabled; rate defaults to 0 and gain range to `(0, 0)` per
        state; switching defaults to `(0, 1)`; the spatial box is that of the
        LAST state listed (default all zeros). With no states Python fails
        before the box is read, so at least one is required. */
    constructor (spec: BurstSpec)
      requires |spec.states| >= 1
      ensures Valid() && !enabled && name == spec.name && poolName == spec.pool
      ensures switching == OrElse(spec.switching, (0.0, 1.0))
      ensures rates == seq(|spec.states|, i requires 0 <= i < |spec.states| => RateOf(spec.states[i]))
      ensures mins == seq(|spec.states|, i requires 0 <= i < |spec.states| => GainOf(spec.states[i]).0)
      ensures maxs == seq(|spec.states|, i requires 0 <= i < |spec.states| => GainOf(spec.states[i]).1)
      ensures box == OrElse(spec.states[|spec.states| - 1].space, (Vec3(0.0, 0.0, 0.0), Vec3(0.0, 0.0, 0.0)))
      ensures fresh(gilbert) && gilbert.state == 0
      ensures gilbert.p1 == switching.0 && gilbert.p2 == switching.1
    {
      name := spec.name;
      poolName := spec.pool;
      var sw := OrElse(spec.switching, (0.0, 1.0));
      switching := sw;
      enabled := false;
      var rs: seq<real> := [];
      var lows: seq<real> := [];
      var highs: seq<real> := [];
      var i := 0;
      while i < |spec.states|
        invariant 0 <= i <= |spec.states|
        invariant rs == seq(i, j requires 0 <= j < i => RateOf(spec.states[j]))
        invariant lows == seq(i, j requires 0 <= j < i => GainOf(spec.states[j]).0)
        invariant highs == seq(i, j requires 0 <= j < i => GainOf(spec.states[j]).1)
      {
        rs := rs + [RateOf(spec.states[i])];
        var g := GainOf(spec.states[i]);
        lows := lows + [g.0];
        highs := highs + [g.1];
        i := i + 1;
      }
      rates := rs;
      mins := lows;
      maxs := highs;
      box := OrElse(spec.states[|spec.states| - 1].space, (Vec3(0.0, 0.0, 0.0), Vec3(0.0, 0.0, 0.0)));
      gilbert := new Gilbert(sw.0, sw.1);
    }

    /** `update(dt)`: nothing while disabled (the chain does not move either);
        otherwise one tick of the chain, then the trigger test for the mode it
        is in. */
    method Update(dt: real, u1: Draw, u2: Draw, uRate: Draw, uGain: Draw, uPos: (Draw, Draw, Draw), m: Maths)
      returns (out: BurstOutcome)
      requires Valid()
      modifies gilbert
      ensures !enabled ==> out == Quiet && gilbert.state == old(gilbert.state)
      ensures enabled ==>
                gilbert.state == GilbertStep(old(gilbert.state), gilbert.p1, gilbert.p2, dt, u1, u2, m) &&
                out == Emission(poolName, rates, mins, maxs, box, gilbert.state, dt, uRate, uGain, uPos, m)
      ensures gilbert.p1 == old(gilbert.p1) && gilbert.p2 == old(gilbert.p2)
    {
      if !enabled {
        return Quiet;
      }
      gilbert.Update(dt, u1, u2, m);
      out := Emission(poolName, rates, mins, maxs, box, gilbert.state, dt, uRate, uGain, uPos, m);
    }
  }
}
