# sound_server control layer, in Dafny

This project models the control-rate layer of the `sound_server` Python package. That layer:

- smooths parameter changes;
- evaluates TCB splines;
- estimates velocities with Savitzky–Golay filters;
- runs automations and stochastic bursts;
- allocates and steals voices;
- keeps the server's configuration and name bookkeeping;
- parses the OpenAL extension headers.

The model covers these parts:

- **Smoothing and splines.** The `SmoothVal` interpolator (`Smooth`) and the Kochanek–Bartels cardinal spline (`Spline`).
- **Velocity estimation.** The Savitzky–Golay coefficient validation, matrix and sliding window (`DerivativeEstimator`). Also the channel counter and the three-axis velocity filter (`SoundGlobalState`).
- **Automations and bursts** (`AutoSounds`):
  - the Gilbert chain;
  - the sine, spline and random-walk proxies;
  - time-modulated automations;
  - per-attribute sums in an automation group;
  - the burst generator.
- **Sounds** (`SoundObject`):
  - the 64-bit DSP clock split;
  - the jittered start delay;
  - channel liveness;
  - the free-channel scan and random steal of `spawn`;
  - the cutoff rule of `update`.
- **Channel groups** (`ChannelGroups`): allocation, subgroup linking, sound registration and `update`.
- **Server bookkeeping** (`Server`):
  - configuration merge and override;
  - `unique_name`;
  - automation attachment;
  - burst switching;
  - the kill list;
  - OSC address normalisation;
  - sound pools.
- **OpenAL** (`OpenAlExt`, `OpenAlExtLegacy`, `AlUtils`):
  - the type-name resolver;
  - the `#define` value classifier;
  - the header parsers and loaders of both copies;
  - the enum inverse map;
  - the attribute-list flattener and its decoder.

Modelling choices:

- **Outside calls as inputs.** Transcendental functions (`**`, `sin`, `pi`, `pinv`) are passed in as a `Maths` bundle or as function parameters. The laws the model relies on are stated as predicates (`Numerics.Lawful`, `DerivativeEstimator.PinvShaped`). Random draws are explicit `Draw` arguments in [0, 1), and FMOD channel queries are a `status` function.
- **Errors.** Python exceptions become `Option`/`Result` values.
- **Two copies of the OpenAL loader.** The older `openal_ext.py` has the same `get_real_type` and `#define` classification text as `sound_server/openal/openal_ext.py`, so `OpenAlExtLegacy` reuses those definitions from `OpenAlExt`. It models only what differs: the procedure triples, the two header paths, and the failure on a missing header.
- **The `#define` classification order.** The parsers and both loaders take a `DefineOrder`. `AsWritten` is the program as it stands, with the `f` test before the `0x` test. `HexFirst` is the corrected order from the first Findings row. Lemmas show where the two differ (`HexDefineAbortsLoad`, `HexDefineAbortsLegacyLoad`) and that they agree on headers without hexadecimal values (`ParseOrdersAgree`).
- **Objects and values.** Objects whose fields the source updates in place are Dafny classes whose methods state their whole new state. Automations are values, because `AutomationGroup.add` deep-copies them.

## Model

| member | source | states |
|---|---|---|
| Smooth.CoeffFor | build/lib/sound_server/smooth.py:32-36 | the coefficient is 0 exactly when the time is 0, and lies in [0, 1) for a non-negative time |
| Smooth.LinearStep | build/lib/sound_server/smooth.py:79-81 | the linear value lies between the start and the target, and equals a distinct target exactly when `t >= time + 1e-8` |
| Smooth.ExpStep | build/lib/sound_server/smooth.py:83-84 | the distance to the target is multiplied by `abs(a)`; for `a` in [0, 1] it never grows and the value stays between state and target |
| Smooth.Initial | build/lib/sound_server/smooth.py:21-30 | construction sets state, target and start to the initial value, `t = 0`, not overshot; the coefficient is 0 exactly when the time is 0 |
| Smooth.SmoothState.SetTime | build/lib/sound_server/smooth.py:43-46 | only the time and its recomputed coefficient change |
| Smooth.SmoothState.Set | build/lib/sound_server/smooth.py:48-52 | the target becomes `x`, the start becomes the current state, `t = 0`; time, coefficient and overshoot flag are kept |
| Smooth.SmoothState.Jump | build/lib/sound_server/smooth.py:61-67 | state, start and target become `x`, `t` and `time` become 0, the coefficient is not recomputed |
| Smooth.SmoothState.SetWithTime | build/lib/sound_server/smooth.py:54-59 | a zero time is exactly a jump; any other time is a set followed by set_time |
| Smooth.SmoothState.Update | build/lib/sound_server/smooth.py:70-85 | `t` grows by exactly `dt`; the overshoot test; the new state follows the linear or exponential rule toward the effective target; nothing else changes |
| Smooth.SmoothState.NextOvershot | build/lib/sound_server/smooth.py:72-75 | the flag stays set once set; with no overshoot pending or a non-positive state it never becomes set; with an overshoot pending it becomes set once the state reaches the overshot target |
| Smooth.JumpThenUpdateStays | build/lib/sound_server/smooth.py:61-84 | with no overshoot pending, jump(x) followed by any update leaves the state at `x` in both modes |
| Smooth.OvershotIsSticky | build/lib/sound_server/smooth.py:43-85 | once overshot, no set, jump, set_time, set_with_time or update clears the flag |
| Smooth.ExpDistanceNeverGrows | build/lib/sound_server/smooth.py:83-84 | in exponential mode, with a coefficient in [0, 1] and `dt >= 0`, the distance to the target never grows |
| Smooth.LinearUpdateIsConvex | build/lib/sound_server/smooth.py:79-81 | in linear mode the new state lies between the start and the target, and reaches a distinct target only once `t >= time + 1e-8` |
| Smooth.SmoothVal.constructor | build/lib/sound_server/smooth.py:21-30 | the fields are those of `Initial` |
| Smooth.SmoothVal.UpdateCoeff | build/lib/sound_server/smooth.py:32-36 | only the coefficient changes, to the one for the current time |
| Smooth.SmoothVal.SetTime | build/lib/sound_server/smooth.py:43-46 | the object's new fields are those of `SmoothState.SetTime` |
| Smooth.SmoothVal.Set | build/lib/sound_server/smooth.py:48-52 | the object's new fields are those of `SmoothState.Set` |
| Smooth.SmoothVal.SetWithTime | build/lib/sound_server/smooth.py:54-59 | the object's new fields are those of `SmoothState.SetWithTime` |
| Smooth.SmoothVal.Jump | build/lib/sound_server/smooth.py:61-67 | the object's new fields are those of `SmoothState.Jump` |
| Smooth.SmoothVal.Update | build/lib/sound_server/smooth.py:70-85 | the object's new fields are those of `SmoothState.Update` |
| Smooth.SmoothVal.Clone | build/lib/sound_server/sound_object.py:198 | the deep copy holds the same fields as the original |
| Spline.Locate | sound_server/spline.py:17-27 | `s = t - floor(t)` lies in [0, 1); for a non-empty spline `p0` is in range and `p1 <= n-1`; `p1 >= 0` exactly for `t >= -1`, since `p1` has no lower clamp |
| Spline.PartitionOfUnity | sound_server/spline.py:33-34 | `h1 + h2 = 1` for every `s` |
| Spline.BasisAtEnds | sound_server/spline.py:33-36 | at `s = 0` only `h1` is 1, at `s = 1` only `h2` is 1 |
| Spline.Tangents | sound_server/spline.py:39-58 | the incoming tangent is zero at the first point or when the previous, current and next points are equal; the outgoing tangent is zero at the last point or when the current, next and following points are equal |
| Spline.BlendAtEnds | sound_server/spline.py:33-62 | a segment starts at its first point and ends at its second |
| Spline.BlendOfConstant | sound_server/spline.py:44-62 | equal points give that point for every `s` |
| Spline.CardinalSpline.Len | sound_server/spline.py:68-69 | `len` is the number of control points |
| Spline.CardinalSpline.At | sound_server/spline.py:39-64 | an evaluation that does not raise has one entry per dimension |
| Spline.CardinalSpline.Call | sound_server/spline.py:15-64 | an evaluation that does not raise has one entry per dimension |
| Spline.CatmullRom | sound_server/spline.py:8-13 | the default shape is tension -0.5, with no continuity or bias |
| Spline.KnotReproduction | sound_server/spline.py:17-62 | at every integer `k` in `0 .. n-1` the curve is exactly `pts[k]` |
| Spline.ContinuousAtKnot | sound_server/spline.py:17-62 | every `t` in `[k-1, k)` lands on the segment from knot `k-1` to knot `k`, and that segment ends at `pts[k]`, the curve's value at `k` |
| Spline.ConstantPoints | sound_server/spline.py:42-62 | with all control points equal to `v`, the evaluation succeeds for every `t >= -1`, and every evaluation that succeeds gives `v` |
| Spline.NoPointsFails | sound_server/spline.py:22-27 | with no points every evaluation raises |
| Spline.WrapsBelowMinusOne | sound_server/spline.py:17-27 | below -1 the unclamped `p1` reads a point from the end of the array, as numpy's negative index does: the points `[0], [10]` at `t = -1.5` give `[5]` |
| DerivativeEstimator.Columns | sound_server/derivative_estimator.py:15 | the number of polynomial coefficients is `order + 1` |
| DerivativeEstimator.Vandermonde | sound_server/derivative_estimator.py:14-18 | `window` rows of `order + 1` columns, with entry `[r][i] = (r - half_window)^i` |
| DerivativeEstimator.VandermondeSymmetry | sound_server/derivative_estimator.py:16-18 | mirrored rows agree on even columns and are negated on odd ones; the middle row is `1, 0, 0, ...` |
| DerivativeEstimator.PowerOfNegation | sound_server/derivative_estimator.py:18 | a negated base flips the sign of a power exactly for odd exponents |
| DerivativeEstimator.CoefficientsFor | sound_server/derivative_estimator.py:9-22 | raises "not a positive odd number" exactly for an even or non-positive window, raises "too small" exactly for an odd window below `order + 2`, and otherwise gives `pinv` of the matrix, of shape `(order + 1) x window` |
| DerivativeEstimator.CoefficientsAsWritten | sound_server/derivative_estimator.py:5-22 | an explicit window is validated as `CoefficientsFor`; a missing one becomes `order + 2` |
| DerivativeEstimator.DefaultWindowRaisesForEvenOrder | sound_server/derivative_estimator.py:6-10 | for every even order, including the default 2, the default window is even, so the call always raises |
| DerivativeEstimator.DefaultWindow | sound_server/derivative_estimator.py:6-12 | the corrected default is the smallest window the validation accepts |
| DerivativeEstimator.Coefficients | sound_server/derivative_estimator.py:5-22 | agrees with the source for an explicit window; with the default window it never raises |
| DerivativeEstimator.NormaliseSize | sound_server/derivative_estimator.py:27-29 | the size becomes odd, either kept or bumped by one, and an odd size is kept |
| DerivativeEstimator.NormaliseOrder | sound_server/derivative_estimator.py:30-31 | the order is raised to at least `deriv + 1` and otherwise kept |
| DerivativeEstimator.SgFilter | sound_server/derivative_estimator.py:26-35 | succeeds exactly when the normalised size is positive and at least the normalised order plus 2, and row `deriv` exists under Python indexing; the row then has one coefficient per window slot |
| DerivativeEstimator.DotOfConstant | sound_server/derivative_estimator.py:61 | a window holding `c` everywhere gives `c * sum(diff)` |
| DerivativeEstimator.Pushed | sound_server/derivative_estimator.py:55-59 | the first sample fills all `size` slots; a later one shifts the window left and writes the sample last |
| DerivativeEstimator.Feed | sound_server/derivative_estimator.py:54-59 | feeding samples keeps the window length at `size` |
| DerivativeEstimator.LastSamples | sound_server/derivative_estimator.py:55-59 | the reference window always holds `size` samples |
| DerivativeEstimator.FeedHoldsLastSamples | sound_server/derivative_estimator.py:54-59 | from an empty buffer the window holds the last `size` samples, padded with the first sample |
| DerivativeEstimator.SavitzkyGolay.constructor | sound_server/derivative_estimator.py:40-52 | normalised size, the given derivative, the coefficients of `sg_filter`, and no buffer |
| DerivativeEstimator.SavitzkyGolay.NewSample | sound_server/derivative_estimator.py:54-62 | the window becomes `Pushed` of the old one; the result is the dot product of window and coefficients |
| DerivativeEstimator.SavitzkyGolay.Clear | sound_server/derivative_estimator.py:64-65 | the buffer is dropped and nothing else changes |
| DerivativeEstimator.ShiftIn | sound_server/derivative_estimator.py:58-59 | the array in place becomes its old tail followed by the sample |
| DerivativeEstimator.FirstSampleEstimate | sound_server/derivative_estimator.py:55-61 | the first sample `x` gives the estimate `x * sum(diff)` |
| SoundGlobalState.ChannelCounter.constructor | build/lib/sound_server/sound_global_state.py:9 | the counter starts at 1 and has issued nothing |
| SoundGlobalState.ChannelCounter.NewChannel | build/lib/sound_server/sound_global_state.py:11-16 | returns the current number and then increments; the numbers issued are exactly 1, 2, 3, ..., with no repeats |
| SoundGlobalState.TapsOrDefault | build/lib/sound_server/sound_global_state.py:26-31 | the default 13 replaces a missing or zero `taps`; any other value is kept |
| SoundGlobalState.VelocityFilter.constructor | build/lib/sound_server/sound_global_state.py:28-32 | a zero velocity and three distinct filters with `deriv = 1`, the given order and the taps or the default, none holding a sample |
| SoundGlobalState.VelocityFilter.NewSample | build/lib/sound_server/sound_global_state.py:34-36 | for each axis `i`, filter `i` takes `pos[i]` and `velocity[i]` is its output truncated to an integer; each filter keeps its size, derivative order and coefficients |
| SoundGlobalState.VelocityFilter.FeedAxis | build/lib/sound_server/sound_global_state.py:36 | only axis `i` changes: its window is pushed and its velocity is the truncated estimate |
| SoundGlobalState.VelocityFilter.Clear | build/lib/sound_server/sound_global_state.py:39-42 | a fresh zero velocity, and all three filters without a sample |
| SoundGlobalState.VelocityFilter.ClearAxis | build/lib/sound_server/sound_global_state.py:42 | only filter `i` is cleared |
| AutoSounds.GilbertStep | build/lib/sound_server/auto_sounds.py:17-27 | from state 0 or 1 the chain ends in 0 or 1; any other state is left alone |
| AutoSounds.GilbertCertainSwitchEndsAtZero | build/lib/sound_server/auto_sounds.py:19-27 | with `p1 = p2 = 1` and `dt > 0`, every update ends in state 0 |
| AutoSounds.GilbertNeverLeavesZero | build/lib/sound_server/auto_sounds.py:19-24 | with `p1 = 0` the chain never leaves state 0 |
| AutoSounds.Gilbert.constructor | build/lib/sound_server/auto_sounds.py:12-15 | the probabilities are stored and the state starts at 0 |
| AutoSounds.Gilbert.Update | build/lib/sound_server/auto_sounds.py:17-27 | the new state is `GilbertStep` of the old one; the probabilities are kept |
| AutoSounds.PointSpline | build/lib/sound_server/auto_sounds.py:48-53 | scalar points become one-column rows of the spline |
| AutoSounds.Wave | build/lib/sound_server/auto_sounds.py:42 | the sine factor lies in [-1, 1] |
| AutoSounds.SineStep | build/lib/sound_server/auto_sounds.py:40-42 | the phase advances by `2*pi*dt`; frequency and bounds are kept |
| AutoSounds.SineAmplitude | build/lib/sound_server/auto_sounds.py:42 | the state stays within `abs(max - min)` of the midpoint |
| AutoSounds.SplineStep | build/lib/sound_server/auto_sounds.py:57-62 | the phase advances by `rate*dt`, the state is the spline there, and the phase resets to 0 only when looping and at or past the end |
| AutoSounds.LoopingSplineStaysInRange | build/lib/sound_server/auto_sounds.py:57-62 | a looping spline played forward never raises and keeps its phase in `[0, len(pts))` |
| AutoSounds.NewRandomWalk | build/lib/sound_server/auto_sounds.py:67-73 | starts at a uniform draw in the range, with a zero-time smoother |
| AutoSounds.RetargetTime | build/lib/sound_server/auto_sounds.py:79 | the retarget time is non-negative for a non-negative rate, and a move across the whole span takes exactly `rate` |
| AutoSounds.RandomStep | build/lib/sound_server/auto_sounds.py:75-81 | the smoother is updated once; while it is at least the threshold away from its target nothing else changes; once it is closer, it heads for a fresh `uniform(lo, hi)` draw through `set_with_time` with the time `RetargetTime` gives from its current state; range and rate are kept; the state copies the smoother's; it raises only where the smoother's update divides by zero |
| AutoSounds.RandomWalkStaysInRange | build/lib/sound_server/auto_sounds.py:75-81 | with `dt >= 0` and a non-negative rate, an update never raises and the state stays in the range |
| AutoSounds.NewRandomWalkInRange | build/lib/sound_server/auto_sounds.py:67-73 | a new walk satisfies the range invariant |
| AutoSounds.ProxyStep | build/lib/sound_server/auto_sounds.py:40-81 | dispatches to the proxy's own update and keeps its kind; an automation without a proxy raises |
| AutoSounds.Step | build/lib/sound_server/auto_sounds.py:150-156 | an update that does not raise keeps the name, the attribute and the nesting of time modulators; the modulator is updated first, the proxy then advances by `dt` times the modulator's new state, and the automation's state is the proxy's |
| AutoSounds.UnitModulationIsTransparent | build/lib/sound_server/auto_sounds.py:150-156 | a modulator reading 1 leaves the proxy advancing by `dt` |
| AutoSounds.ZeroModulationFreezesPhase | build/lib/sound_server/auto_sounds.py:150-156 | a modulator reading 0 freezes a sine or non-looping spline phase |
| AutoSounds.NewProxy | build/lib/sound_server/auto_sounds.py:122-136 | each proxy type with its documented defaults; a spline with no points fails, as `self.pts[0]` raises IndexError while the proxy is built; an unknown type has no proxy |
| AutoSounds.FromSpec | build/lib/sound_server/auto_sounds.py:116-145 | construction fails exactly when a spline with no points appears anywhere in the `time` chain; otherwise name defaults to `<unnamed>`, attribute to `time`, state to 0, the proxy is the one its spec builds, and nesting follows the `time` spec |
| AutoSounds.AttrSumSplit | build/lib/sound_server/auto_sounds.py:100-105 | the per-attribute sum does not depend on the iteration order |
| AutoSounds.AttrSumAbsent | build/lib/sound_server/auto_sounds.py:107-108 | an attribute no automation drives sums to 0 |
| AutoSounds.TableGivesSums | build/lib/sound_server/auto_sounds.py:100-108 | after update, `get(a)` is the sum of the states of the automations whose attribute is `a`, and 0 when there are none |
| AutoSounds.AddToTable | build/lib/sound_server/auto_sounds.py:105 | adding one automation's state to its attribute turns the table over `done` into the table over `done + {k}` |
| AutoSounds.Accumulate | build/lib/sound_server/auto_sounds.py:105 | the loop body's update of `attrs` is that step |
| AutoSounds.AutomationGroup.constructor | build/lib/sound_server/auto_sounds.py:88-90 | no automations and no attributes |
| AutoSounds.AutomationGroup.Clone | build/lib/sound_server/sound_object.py:198 | the deep copy holds the same automations and attributes |
| AutoSounds.AutomationGroup.Add | build/lib/sound_server/auto_sounds.py:92-94 | stores the automation under `name`, replacing any earlier one; attributes are kept |
| AutoSounds.AutomationGroup.Remove | build/lib/sound_server/auto_sounds.py:96-98 | drops `name`; an absent name changes nothing |
| AutoSounds.AutomationGroup.Update | build/lib/sound_server/auto_sounds.py:100-105 | every automation is stepped once, and `attrs` is rebuilt from zero as the per-attribute sums |
| AutoSounds.AutomationGroup.Get | build/lib/sound_server/auto_sounds.py:107-108 | the attribute's entry, or 0 |
| AutoSounds.Emission | build/lib/sound_server/auto_sounds.py:193-208 | raises exactly when the mode is out of range under Python indexing; an emission goes to the pool, with its gain in [-120, 0] and its position inside the box |
| AutoSounds.Burst.constructor | build/lib/sound_server/auto_sounds.py:165-181 | starts disabled with switching `[0, 1]` by default, per-state rate 0 and gain `(0, 0)` by default, the box of the last state, and a fresh chain in state 0 |
| AutoSounds.Burst.Update | build/lib/sound_server/auto_sounds.py:184-208 | while disabled nothing happens and the chain does not move; otherwise the chain steps and the emission test uses the new mode |
| SoundObject.DspClock | build/lib/sound_server/sound_object.py:16-20 | `(hi << 32) \| lo` is a 64-bit value whose high and low words are `hi` and `lo` |
| SoundObject.OrIsAddition | build/lib/sound_server/sound_object.py:20 | with a low word below 2^32, the bitwise or equals the sum |
| SoundObject.HiWord | build/lib/sound_server/sound_object.py:23 | `t >> 32` of a 64-bit value fits in 32 bits |
| SoundObject.LoWord | build/lib/sound_server/sound_object.py:23 | `t & 0xffffffff` is below 2^32 and completes `t` with the high word |
| SoundObject.ClockRoundTrip | build/lib/sound_server/sound_object.py:20-26 | splitting and recombining a 64-bit clock gives it back, in both directions |
| SoundObject.JitteredStart | build/lib/sound_server/sound_object.py:133-134 | the start delay is the clock plus `randint(0, jitter)`, so it lies in `[clock, clock + jitter]` |
| SoundObject.Candidates | build/lib/sound_server/sound_object.py:176-184 | the candidates are channels of the group, in order |
| SoundObject.CandidatesExactly | build/lib/sound_server/sound_object.py:148-184 | a channel is a candidate exactly when it is in the group and its query fails or it is not playing |
| SoundObject.FreeChannels | build/lib/sound_server/sound_object.py:177-184 | the scan loop returns exactly the candidates |
| SoundObject.SelectChannel | build/lib/sound_server/sound_object.py:186-196 | an empty group raises; the chosen channel is in the group; a channel is stopped exactly when there is no candidate, and then it is the chosen one; otherwise the choice is a candidate |
| SoundObject.StealOnlyWhenAllBusy | build/lib/sound_server/sound_object.py:186-196 | exactly one channel is stolen, and only when every channel answers that it is playing |
| SoundObject.Filtered | build/lib/sound_server/sound_object.py:250-257 | the filter is bypassed exactly when the cutoff exceeds 20000 |
| SoundObject.VoiceStepped | build/lib/sound_server/sound_object.py:239-249 | pitch and gain step once; the channel gets the pitch, and the gain plus the `gain` automation |
| SoundObject.FilterStepped | build/lib/sound_server/sound_object.py:250-257 | the cutoff steps, and the cutoff rule is applied to it plus the `filter` automation |
| SoundObject.GroupOf | build/lib/sound_server/sound_object.py:75-83 | the descriptor's group if it exists, otherwise none |
| SoundObject.NewInterpolators | build/lib/sound_server/sound_object.py:64-73 | gain is linear with 0.05 s, pitch is exponential with 0.05 s, and the cutoff is `(filter, 0.01)` or `(0, 0)` |
| SoundObject.Sound.constructor | build/lib/sound_server/sound_object.py:36-91 | descriptor defaults; no channel, not finished; registered with an existing group and with no other; nothing written to a channel yet |
| SoundObject.Sound.Copy | build/lib/sound_server/sound_object.py:198 | the deep copy has the same settings and state in fresh interpolators and a fresh automation group |
| SoundObject.Sound.AssignChannel | build/lib/sound_server/sound_object.py:117-146 | the start delay is jittered and split into words; without a group it raises after the volume write; otherwise it binds the channel and creates the filter |
| SoundObject.Sound.WriteStart | build/lib/sound_server/sound_object.py:127-136 | the volume write and the delayed start, and nothing else |
| SoundObject.Sound.Bind | build/lib/sound_server/sound_object.py:138-144 | binds the channel and creates the filter of a filtered sound; fails without a group |
| SoundObject.Sound.GetChannel | build/lib/sound_server/sound_object.py:153-161 | no id gives none; a failed query clears the id and marks the sound finished; a working one returns the id |
| SoundObject.Sound.Update | build/lib/sound_server/sound_object.py:232-257 | the automations always update; without a live channel nothing else changes; otherwise the voice is `Driven`; settings, interpolator objects and the start delay are kept |
| SoundObject.Sound.Refresh | build/lib/sound_server/sound_object.py:235-236 | the channel lookup, then the automation update; voice, settings and start delay are kept |
| SoundObject.Sound.Drive | build/lib/sound_server/sound_object.py:239-257 | the live-channel part of `update` is `Driven`; channel, settings and start delay are kept |
| SoundObject.Sound.DriveVoice | build/lib/sound_server/sound_object.py:239-249 | pitch, position and gain writes; nothing else changes |
| SoundObject.Sound.DrivePitch | build/lib/sound_server/sound_object.py:239-245 | pitch step and channel frequency write; nothing else changes |
| SoundObject.Sound.DriveGain | build/lib/sound_server/sound_object.py:248-249 | gain step and volume write; nothing else changes |
| SoundObject.Sound.DriveFilter | build/lib/sound_server/sound_object.py:250-257 | cutoff step and the cutoff rule; nothing else changes |
| SoundObject.Sound.Spawn | build/lib/sound_server/sound_object.py:165-201 | without a group it returns nothing and touches nothing; an empty group raises; otherwise the channel of `SelectChannel` is assigned to a fresh copy, which carries the original's settings, interpolator states and automations (in a fresh group), with the volume written and the jittered start split into words |
| SoundObject.NewSound | build/lib/sound_server/sound_object.py:36-91 | a non-transient sound takes the next channel number at once, and raises exactly when it has no channel group; a transient one takes no number and holds no channel; the sound has the constructor's settings, interpolators and empty automations, the assignment's start delay, words, volume and filter, and only its own group records it (none does when it raises) |
| ChannelGroups.ApplyCutoff | build/lib/sound_server/sound_channel_group.py:100-106 | bypassed exactly above 20000; otherwise the cutoff is set |
| ChannelGroups.CutoffRuleSettles | build/lib/sound_server/sound_channel_group.py:100-106 | applying a cutoff twice is applying it once; below the bound the old filter state is irrelevant |
| ChannelGroups.Shift | build/lib/sound_server/sound_channel_group.py:90 | adding a scalar moves every axis by it |
| ChannelGroups.Listed | build/lib/sound_server/sound_channel_group.py:66-71 | the linked subgroups are groups of the map |
| ChannelGroups.ListedExactly | build/lib/sound_server/sound_channel_group.py:66-73 | exactly the listed names that exist are linked |
| ChannelGroups.ListedStep | build/lib/sound_server/sound_channel_group.py:67-73 | a missing name adds nothing; an existing one appends its group |
| ChannelGroups.NewChannels | build/lib/sound_server/sound_channel_group.py:54-56 | exactly `transient_channels` fresh numbers, in order, consecutive from the counter |
| ChannelGroups.ChannelGroup.constructor | build/lib/sound_server/sound_channel_group.py:22-58 | settings with their defaults; fresh channel numbers; the interpolators after `update(0.0)`; the cutoff rule applied |
| ChannelGroups.ChannelGroup.FirstUpdate | build/lib/sound_server/sound_channel_group.py:58 | the closing `update(0.0)` of a group without automations |
| ChannelGroups.ChannelGroup.SetupSubgroups | build/lib/sound_server/sound_channel_group.py:64-73 | appends the existing listed subgroups in order and makes this group their parent; the field-level `modifies` clause lets only this group's subgroup list and the groups' `parent` change, so every other field of every group is unchanged |
| ChannelGroups.ChannelGroup.Link | build/lib/sound_server/sound_channel_group.py:69-71 | appends one subgroup and sets its parent; nothing else changes in either group |
| ChannelGroups.ChannelGroup.RegisterSound | build/lib/sound_server/sound_channel_group.py:75-77 | appends the sound and changes nothing else |
| ChannelGroups.ChannelGroup.Update | build/lib/sound_server/sound_channel_group.py:80-106 | automations and interpolators step once; the volume is gain plus automation; the 3-D override exactly when the position is set; the cutoff rule |
| ChannelGroups.ChannelGroup.Emit | build/lib/sound_server/sound_channel_group.py:88-106 | the writes at the end of `update` |
| Server.MergeDicts | sound_server/sound_server.py:748-758 | the keys of either dictionary; nested dictionaries merge recursively |
| Server.LaterLeafWins | sound_server/sound_server.py:750-754 | a non-dictionary value of the second configuration wins at its path |
| Server.EarlierKeptWhereUnset | sound_server/sound_server.py:749-758 | at any key path, what the first configuration holds is kept where the second holds nothing and replaces no dictionary on the way by a plain value |
| Server.MergeSelf | sound_server/sound_server.py:748-758 | merging a configuration with itself gives it back |
| Server.MergeEmpty | sound_server/sound_server.py:748-758 | the empty configuration is neutral on both sides |
| Server.Replaced | sound_server/sound_server.py:85-87 | exactly the keys of the defaults, with the replacement's value where it has one |
| Server.ReplacedLaws | sound_server/sound_server.py:85-87 | idempotent, ignores extra keys, and an empty replacement changes nothing |
| Server.ReplacedIsShallowMerge | sound_server/sound_server.py:85-87 | on the defaults' keys, replacing agrees with merging when the defaults are flat |
| Server.ReplaceFromYaml | sound_server/sound_server.py:85-87 | the loop computes `Replaced` |
| Server.SplitAtFirst | sound_server/sound_server.py:515 | splitting at the first `/` gives the text before it, then the split of the rest |
| Server.NormaliseAddress | sound_server/sound_server.py:515 | the result starts with `/` |
| Server.NormaliseDropsFirstSegment | sound_server/sound_server.py:515 | the text before the first `/` is dropped |
| Server.RootedAddressUnchanged | sound_server/sound_server.py:515 | an address starting with `/` is kept |
| Server.NormaliseIdempotent | sound_server/sound_server.py:515 | normalising twice is normalising once |
| Server.UnslashedAddressIsRoot | sound_server/sound_server.py:515 | an address without `/` becomes `/` |
| Server.NameFor | sound_server/sound_server.py:141 | starts with `name_` and is at least 11 characters long: the number is padded to six digits |
| Server.NameForInjective | sound_server/sound_server.py:141 | different counter values give different names |
| Server.NamesUpTo | sound_server/sound_server.py:139-141 | the names of the first `n` calls |
| Server.NamesUpToDistinct | sound_server/sound_server.py:139-141 | no name is handed out twice |
| Server.Existing | sound_server/sound_server.py:58-62 | the kept sounds come from the list, in order |
| Server.ExistingExactly | sound_server/sound_server.py:58-62 | a pool holds exactly the listed names that exist |
| Server.ExistingStep | sound_server/sound_server.py:59-62 | an existing name is appended; a missing one is skipped |
| Server.SoundPool.constructor | sound_server/sound_server.py:54-62 | name and the existing listed sounds in order |
| Server.SoundPool.Get | sound_server/sound_server.py:64-65 | an empty pool raises; otherwise one of its sounds, chosen by the draw |
| Server.SoundServer.constructor | sound_server/sound_server.py:279-290 | counter 0, no attachments |
| Server.SoundServer.UniqueName | sound_server/sound_server.py:139-141 | the counter grows by one and the name is that value's name, never issued before |
| Server.SoundServer.AttachAutomation | sound_server/sound_server.py:465-470 | an unknown target changes nothing; an unknown automation raises before any change; otherwise the copy is added to the target and the attachment recorded |
| Server.SoundServer.DetachAutomation | sound_server/sound_server.py:472-478 | an unknown attachment changes nothing; otherwise it is removed from its target and forgotten |
| Server.SoundServer.SetBurstEnable | sound_server/sound_server.py:435-439 | a known burst takes the flag; nothing else changes |
| Server.SoundServer.CollectKillList | sound_server/sound_server.py:371-378 | the kill list is exactly the names holding `None` or a finished sound; the other names are the ones to update |
| Server.SoundServer.DeleteKilled | sound_server/sound_server.py:385-388 | of the killed names, exactly the transient sounds are deleted |
| Server.SoundServer.ReapSounds | sound_server/sound_server.py:371-388 | the updated names are the live ones; only finished transient sounds disappear |
| OpenAlExt.PointerTo | sound_server/openal/openal_ext.py:33 | a ctypes pointer to `None` is `c_void_p`; any other type gives a pointer to it |
| OpenAlExt.RealTypeRules | sound_server/openal/openal_ext.py:24-29 | a stripped name containing `LP`, or equal to `void *`, gives `c_void_p`; otherwise `void` and `ALvoid` give `None`; an all-blank name raises |
| OpenAlExt.PlainRealType | sound_server/openal/openal_ext.py:32-34 | a trailing star is a pointer to the rest; otherwise the table lookup |
| OpenAlExt.PointerRule | sound_server/openal/openal_ext.py:32-33 | the pointer rule, including its failure |
| OpenAlExt.TableRule | sound_server/openal/openal_ext.py:34 | a table name resolves to its type |
| OpenAlExt.DeclaredPointer | sound_server/openal/openal_ext.py:24-34 | every table name followed by `n` stars is `n` pointers to its type |
| OpenAlExt.PointerChain | sound_server/openal/openal_ext.py:32-33 | each extra star adds one pointer level |
| OpenAlExt.ConstBeforeLP | sound_server/openal/openal_ext.py:26-31 | `const` before a name containing `LP` still gives `c_void_p`, since the `LP` rule comes first |
| OpenAlExt.ConstBeforePlain | sound_server/openal/openal_ext.py:30-34 | `const` before a name without `LP` is dropped |
| OpenAlExt.ConstIsDropped | sound_server/openal/openal_ext.py:30-31 | a `const ` prefix does not change the type |
| OpenAlExt.ParseSignedInt | sound_server/openal/openal_ext.py:66-67 | a non-empty run of decimal digits, optionally after one `-` or `+`, reads as its signed value; anything read comes from such a spelling |
| OpenAlExt.ParseHex | sound_server/openal/openal_ext.py:62-63 | a non-empty run of hex digits reads as its value |
| OpenAlExt.Unwrap | sound_server/openal/openal_ext.py:54-55 | a parenthesised value longer than 2 loses its parentheses |
| OpenAlExt.ClassifyDefineAsWritten | sound_server/openal/openal_ext.py:54-68 | the branches in source order; the `f` test precedes the `0x` test |
| OpenAlExt.HexEndingInFFails | sound_server/openal/openal_ext.py:46-63 | the comment's own example `0xdeadbeef` raises ValueError |
| OpenAlExt.ClassifyDefine | sound_server/openal/openal_ext.py:54-68 | the keywords, then hex first, then the source's order |
| OpenAlExt.Classify | sound_server/openal/openal_ext.py:54-68 | `AsWritten` is the source's classifier and `HexFirst` the corrected one |
| OpenAlExt.OrdersAgreeOffHex | sound_server/openal/openal_ext.py:58-63 | the two orders classify every value that does not start with `0x` alike |
| OpenAlExt.HexLiteral | sound_server/openal/openal_ext.py:62-63 | every lower-case hex literal, bare or parenthesised, gives its value |
| OpenAlExt.DecimalLiteral | sound_server/openal/openal_ext.py:66-67 | decimal digits, with or without a minus sign, give their value |
| OpenAlExt.FloatLiteral | sound_server/openal/openal_ext.py:60-61 | `d.0f` gives the value of `d` as a float |
| OpenAlExt.QuotedLiteral | sound_server/openal/openal_ext.py:64-65 | a quoted value is its text between the quotes |
| OpenAlExt.Lookup | sound_server/openal/openal_ext.py:68 | a name has an entry exactly when it is defined |
| OpenAlExt.Put | sound_server/openal/openal_ext.py:68 | `d[k] = v`: an existing key keeps its place, a new one is appended |
| OpenAlExt.PutThenLookup | sound_server/openal/openal_ext.py:68 | after `d[k] = v`, `d[k]` is `v` and other keys are unchanged |
| OpenAlExt.AddDefines | sound_server/openal/openal_ext.py:53-68 | the pairs in order, classified in the given order; the first malformed value stops the parse |
| OpenAlExt.RealTypes | sound_server/openal/openal_ext.py:84 | either every name resolves, in order, or one of them fails |
| OpenAlExt.ProcOf | sound_server/openal/openal_ext.py:75-85 | the record has the declaration's name and one type per argument; a void result is `None` |
| OpenAlExt.ParseLine | sound_server/openal/openal_ext.py:43-85 | a comment line contributes nothing; otherwise at most one procedure is added after the ones before it |
| OpenAlExt.ParseLines | sound_server/openal/openal_ext.py:42-85 | the definitions parsed so far never repeat a name |
| OpenAlExt.CommentLineIgnored | sound_server/openal/openal_ext.py:43 | a comment line anywhere changes nothing |
| OpenAlExt.FailureSticks | sound_server/openal/openal_ext.py:42-86 | once a line fails, the header fails with that error |
| OpenAlExt.AddDefinesOrdersAgree | sound_server/openal/openal_ext.py:53-68 | without hexadecimal values, both orders add the same defines |
| OpenAlExt.ParseOrdersAgree | sound_server/openal/openal_ext.py:42-86 | a header with no hexadecimal define parses the same in both orders |
| OpenAlExt.HexDefineAbortsLoad | sound_server/openal/openal_ext.py:121-132 | as written, a first header holding `#define X 0xdeadbeef` aborts the whole load with the ValueError, since only FileNotFoundError is caught; in the corrected order it defines `X` as the integer |
| OpenAlExt.ParseDefinitions | sound_server/openal/openal_ext.py:37-86 | the loop computes the left fold `ParseLines` in the given classification order |
| OpenAlExt.ParseOneLine | sound_server/openal/openal_ext.py:43-85 | the loop body computes `ParseLine` |
| OpenAlExt.AddAll | sound_server/openal/openal_ext.py:53-68 | the inner loop computes `AddDefines` in the given classification order |
| OpenAlExt.Invert | sound_server/openal/openal_ext.py:128-129 | every defined value is a key of the inverse, and no other new key appears |
| OpenAlExt.InvertIsRightInverse | sound_server/openal/openal_ext.py:128-129 | the name the inverse map gives for a value is a defined name whose value is that value |
| OpenAlExt.AddConstants | sound_server/openal/openal_ext.py:127 | every constant is in the namespace |
| OpenAlExt.AddProcedures | sound_server/openal/openal_ext.py:111-114 | every procedure's name is in the namespace, and the last procedure is what its name maps to |
| OpenAlExt.Namespace | sound_server/openal/openal_ext.py:133-134 | `openal_enums` holds the inverse map |
| OpenAlExt.MissingHeaderSkipped | sound_server/openal/openal_ext.py:125-132 | a missing header file adds nothing to what the files before it loaded |
| OpenAlExt.LoadExtensions | sound_server/openal/openal_ext.py:121-134 | the loop over the four headers computes `LoadHeaders` and its namespace; with `AsWritten` this is the program as it stands |
| OpenAlExtLegacy.Triples | openal_ext.py:63-71 | each record is the `(res_type, name, arg_types)` triple |
| OpenAlExtLegacy.ParseDefinitions | openal_ext.py:35-72 | the same definitions as the newer parser, and the triples of its procedures in line order |
| OpenAlExtLegacy.VoidResultIsNone | openal_ext.py:66-67 | a `void` or `ALvoid` result is recorded as `None` |
| OpenAlExtLegacy.RecordsComeFromDeclarations | openal_ext.py:60-71 | a parsed declaration whose result is `void` or `ALvoid` records the result type `None` |
| OpenAlExtLegacy.AddConstants | openal_ext.py:99 | every constant is in the namespace |
| OpenAlExtLegacy.AddProcedures | openal_ext.py:86-89 | every procedure's name is in the namespace, and the last procedure is what its name maps to |
| OpenAlExtLegacy.MissingHeaderFails | openal_ext.py:95-100 | a missing header anywhere makes the whole load fail |
| OpenAlExtLegacy.HexDefineAbortsLegacyLoad | openal_ext.py:95-101 | the older loader aborts on `#define X 0xdeadbeef` in the same way |
| OpenAlExtLegacy.LoadExtensions | openal_ext.py:95-101 | the loop over the two headers computes `LoadHeaders` in the given classification order |
| AlUtils.AttrListSpec | sound_server/openal/alutils.py:8-15 | `2 * len(d) + 1` entries ending in the terminator 0 |
| AlUtils.Flatten | sound_server/openal/alutils.py:10 | keys and values interleaved, in order |
| AlUtils.AttrList | sound_server/openal/alutils.py:8-15 | a fresh array holding `AttrListSpec` |
| AlUtils.DeviceAttributes | sound_server/openal/alutils.py:37-40 | the loop decodes `size // 2` pairs as `Decode` does |
| AlUtils.AttrListRoundTrip | sound_server/openal/alutils.py:8-40 | decoding an attribute list gives back each named key's value, as stored in 32 bits |
| AlUtils.DecodeFailureSticks | sound_server/openal/alutils.py:38-39 | once a pair fails to decode, decoding more pairs fails the same way |
| AlUtils.UnnamedKeyFails | sound_server/openal/alutils.py:39 | a key without an enum name raises KeyError |
| Numerics.Clip | build/lib/sound_server/smooth.py:80 | `numpy.clip` lands in the range and keeps values already in it |
| Numerics.TruncToInt | build/lib/sound_server/sound_global_state.py:36 | storing into the integer array truncates toward zero |
| Numerics.PyIndex | build/lib/sound_server/auto_sounds.py:193 | a negative index counts from the end; one out of range raises |
| Numerics.ToInt32 | sound_server/openal/alutils.py:11-13 | an `ALint` slot keeps the value modulo 2^32, in the signed range |
| Numerics.Choice | build/lib/sound_server/sound_object.py:188-196 | `random.choice` returns an element of the sequence |
| Numerics.RandInt | build/lib/sound_server/sound_object.py:134 | `random.randint(a, b)` lies in `[a, b]` |
| Numerics.Uniform | build/lib/sound_server/auto_sounds.py:70 | `numpy.random.uniform(lo, hi)` lies between the bounds, below `hi` when `lo < hi` |
| Text.Strip | sound_server/openal/openal_ext.py:25 | the result has no white space at either end |
| Text.StripIdempotent | sound_server/openal/openal_ext.py:25 | stripping twice is stripping once |
| Text.ZeroPadRoundTrip | sound_server/sound_server.py:141 | a `%06d` number reads back as the number |
| Text.JoinSplit | sound_server/sound_server.py:515 | joining a split with the same separator gives the string back |
| Text.ZeroPadInjective | sound_server/sound_server.py:141 | different numbers padded to the same width give different texts |
| Text.HexRoundTrip | sound_server/openal/openal_ext.py:63 | `int(s, 16)` reads back a hex rendering |
| Text.DecimalRoundTrip | sound_server/openal/openal_ext.py:67 | `int(s)` reads back a decimal rendering |

## Left out

- FMOD, OpenAL and file I/O: every call into the sound libraries, `open`, logging and YAML loading. Their observable effects are modelled as fields (what was written to a channel or group) or as parameters (channel status, clock words, header lines).
- Vector positions: `SmoothVal` is modelled for scalars only, so a sound's and a group's position is held constant. Velocity estimation in `Sound.update` and `ChannelGroup.update` is not modelled; `VelocityFilter` is modelled on its own.
- Floating point: all arithmetic is on exact reals. `float()` of a decimal literal is its exact value, with no binary rounding.
- OpenAlExt.ParseSignedInt: Python's `int()` also accepts surrounding blanks and `_` separators between digits; those spellings are read as malformed here.
- OpenAlExt.ParseFloat and OpenAlExt.ParseHex: `ParseFloat` accepts an optional sign, digits with at most one point, and an optional exponent. `ParseHex` accepts an optional sign and hex digits. Python's `float()` and `int(s, 16)` also accept `inf`, `nan`, surrounding blanks, `_` separators and a `0x` prefix; those spellings are read as malformed here.
- The regular expressions of `parse_definitions`: the `#define` pairs and the `AL_API` captures arrive with each line as their matches.
- `get_proc`, `CFUNCTYPE` and `alGetProcAddress`: a procedure entry holds its record, not a callable.
- The OSC dispatch of `handle_osc` beyond the address normalisation, and the server's reverb, EQ, speaker and launch code. These are outside the control layer.
- The burst-triggered spawning at the start of `SoundServer.update`: it needs the full spawn path through FMOD.
- Smooth.SmoothState.Update: the linear-mode ZeroDivisionError at `time = -1e-8` is a precondition rather than an error value.
- AutoSounds.AutomationGroup.Update: requires every automation's step to succeed. The half-updated group Python leaves when a proxy raises is not modelled.
- AutoSounds.Burst.constructor: requires at least one state. With none, Python raises a NameError on the unbound loop variable.
- DerivativeEstimator.SavitzkyGolay.constructor: requires the coefficient computation to succeed. Its failure is modelled by `SgFilter` returning an error.
- SoundGlobalState.VelocityFilter.constructor: requires the coefficient computation to succeed, as above.
- Pseudo-inverse, `sin`, `2 ** x` and `pi` are parameters; only the laws the proofs need are assumed of them (`Lawful`, `PinvShaped`).
- AutoSounds.GilbertStep: `(1 - p) ** dt` is the total `Maths.Pow`. For a probability above 1 and a fractional `dt`, Python 2 raises ValueError; that error is not modelled. The same holds for `AutoSounds.Burst.Update`.
- AutoSounds.SineStep, AutoSounds.SplineStep, AutoSounds.RandomStep, AutoSounds.NewRandomWalk and AutoSounds.PointSpline: the proxies hold one scalar. The source keeps numpy vectors: array `mins`, `maxs` and `frequency` for the sine, multi-column spline points, and a random walk whose threshold, span and rate are L1 sums over a vector range. Those component-wise and L1 behaviours are not captured.
- AutoSounds.SineStep: the midpoint is the exact `(min + max) / 2`. The source is Python 2, where `(self.mins+self.maxs)/2` floors when the YAML gives integer `min` and `max` (for `min: 0, max: 1` the midpoint is 0 and the state swings over [-1, 1], not [-0.5, 1.5]); that integer floor is not modelled.
- SoundObject.JitteredStart: the jitter is a whole number. Python 2's `random.randint(0, dsp_jitter)` raises ValueError for a jitter that is not a whole number (such as 2.5); that error is not modelled.
- SoundObject.Sound.Copy: the copy shares the channel group object. `copy.deepcopy` also copies the group, with its sound list and subgroups, so in Python the spawned sound is registered with a private copy of the group.

## Findings

| source | as written | input that shows it | evidently intended | confidence | as-written member | corrected member |
|---|---|---|---|---|---|---|
| sound_server/openal/openal_ext.py:60-63 | the `endswith("f")` test comes before the `startswith("0x")` test | `#define X 0xdeadbeef`, the comment's own example at line 46: `float("0xdeadbee")` raises ValueError, and the load of every header fails | hex literals are read as integers | not executed | OpenAlExt.HexDefineAbortsLoad | OpenAlExt.HexLiteral |
| sound_server/derivative_estimator.py:6-10 | the default window is `order + 2` | `savitzky_golay()` with the default `order=2`: window 4 is even and raises TypeError | the smallest odd window of at least `order + 2` | not executed | DerivativeEstimator.DefaultWindowRaisesForEvenOrder | DerivativeEstimator.Coefficients |
