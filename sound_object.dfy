/** Sound objects: one sound descriptor, the channel it plays on, its gain,
    pitch and low-pass interpolators and automations, and the voice
    allocation policy that copies a transient sound onto a free (or stolen)
    channel of its group. The FMOD system is represented by what it answers
    (`ChannelStatus`, the DSP clock words) and by what the sound last wrote
    to its channel (`ChannelOutput`, `LowPass`, the start delay). */
module SoundObject {
  import opened Wrappers
  import opened Numerics
  import opened Smooth
  import opened AutoSounds
  import opened SoundGlobalState
  import opened ChannelGroups

  /** 2^64: the DSP clock is a 64-bit unsigned count of samples. */
  const TwoTo64: int := 0x1_0000_0000_0000_0000

  /** `DSP_clock()`: the two unsigned 32-bit words FMOD returns, put
      together as `(hi << 32) | lo`. The low word fits below bit 32, so the
      `|` is an addition (`OrIsAddition`). */
  function DspClock(hi: int, lo: int): (t: int)
    requires 0 <= hi < TwoTo32 && 0 <= lo < TwoTo32
    ensures 0 <= t < TwoTo64
    ensures t / TwoTo32 == hi && t % TwoTo32 == lo
  {
    hi * 0x1_0000_0000 + lo
  }

  /** With the low word below 2^32, `(hi << 32) | lo` and `(hi << 32) + lo`
      are the same 64-bit word. */
  lemma OrIsAddition(hi: bv64, lo: bv64)
    requires lo < 0x1_0000_0000
    ensures (hi << 32) | lo == (hi << 32) + lo
  {}

  /** `t >> 32` on a Python integer: floor division by 2^32. */
  function HiWord(t: int): (h: int)
    ensures 0 <= t < TwoTo64 ==> 0 <= h < TwoTo32
  {
    t / 0x1_0000_0000
  }

  /** `t & 0xffffffff` on a Python integer: the remainder modulo 2^32. */
  function LoWord(t: int): (l: int)
    ensures 0 <= l < TwoTo32
    ensures HiWord(t) * TwoTo32 + l == t
  {
    t % 0x1_0000_0000
  }

  /** The clock value `assign_channel` delays a channel's start to: the DSP
      clock plus `randint(0, dsp_jitter)` samples. */
  function JitteredStart(hi: int, lo: int, jitter: nat, u: Draw): (t: int)
    requires 0 <= hi < TwoTo32 && 0 <= lo < TwoTo32
    ensures DspClock(hi, lo) <= t <= DspClock(hi, lo) + jitter
    ensures t - DspClock(hi, lo) == RandInt(0, jitter, u)
  {
    DspClock(hi, lo) + RandInt(0, jitter, u)
  }

  /** The words `set_channel_delay_*` pass for a clock value `t` put back
      together give `t`, for every 64-bit clock value; and splitting a clock
      built from two words gives those words back. */
  lemma ClockRoundTrip(t: int, hi: int, lo: int)
    requires 0 <= hi < TwoTo32 && 0 <= lo < TwoTo32
    ensures 0 <= t < TwoTo64 ==> DspClock(HiWord(t), LoWord(t)) == t
    ensures HiWord(DspClock(hi, lo)) == hi && LoWord(DspClock(hi, lo)) == lo
  {
    assert 0 <= t < TwoTo64 ==> HiWord(t) < TwoTo32;
  }

  /** What `FMOD_Channel_IsPlaying` says about a channel: the query fails
      (`Invalid`), or it succeeds and the channel is idle or playing. */
  datatype ChannelStatus = Invalid | Idle | Playing

  /** `test_channel`: the query succeeds. */
  predicate Queryable(s: ChannelStatus)
  {
    s != Invalid
  }

  /** The `potentials` of `spawn`, in channel order: the channels whose query
      fails and the channels that are not playing. */
  function Candidates(chans: seq<int>, status: int -> ChannelStatus): (r: seq<int>)
    ensures |r| <= |chans|
    ensures forall c :: c in r ==> c in chans
  {
    if chans == [] then []
    else
      var prior := Candidates(chans[..|chans| - 1], status);
      var c := chans[|chans| - 1];
      if status(c) == Playing then prior else prior + [c]
  }

  /** A channel is a candidate exactly when it is in the group and its query
      fails or it is not playing. */
  lemma {:induction false} CandidatesExactly(chans: seq<int>, status: int -> ChannelStatus, c: int)
    ensures c in Candidates(chans, status) <==> c in chans && (!Queryable(status(c)) || status(c) != Playing)
  {
    if chans != [] {
      var init := chans[..|chans| - 1];
      CandidatesExactly(init, status, c);
      assert chans == init + [chans[|chans| - 1]];
      assert c in chans <==> c in init || c == chans[|chans| - 1];
    }
  }

  /** The scan loop of `spawn` over the group's channels. */
  method FreeChannels(chans: seq<int>, status: int -> ChannelStatus) returns (potentials: seq<int>)
    ensures potentials == Candidates(chans, status)
  {
    potentials := [];
    var i := 0;
    while i < |chans|
      invariant 0 <= i <= |chans|
      invariant potentials == Candidates(chans[..i], status)
    {
      assert chans[..i + 1][..i] == chans[..i];
      var chan := chans[i];
      if Queryable(status(chan)) {
        if status(chan) != Playing {
          potentials := potentials + [chan];
        }
      } else {
        potentials := potentials + [chan];
      }
      i := i + 1;
    }
    assert chans[..i] == chans;
  }

  /** The channel `spawn` plays on, and the channel it stops first, if any. */
  datatype Pick = Pick(channel: int, stopped: Option<int>)

  /** The selection policy of `spawn`, with `uSteal` and `uPick` the draws
      behind its two `random.choice` calls: a random candidate when there is
      one; otherwise one random channel of the group is stopped and becomes
      the only candidate. With no channels at all `random.choice` raises
      (`None`). */
  function SelectChannel(chans: seq<int>, status: int -> ChannelStatus, uSteal: Draw, uPick: Draw): (r: Option<Pick>)
    ensures r.None? <==> chans == []
    ensures r.Some? ==> r.value.channel in chans
    ensures r.Some? ==> (r.value.stopped.Some? <==> Candidates(chans, status) == [])
    ensures r.Some? && r.value.stopped.Some? ==> r.value.channel == r.value.stopped.value
    ensures r.Some? && r.value.stopped.None? ==> r.value.channel in Candidates(chans, status)
  {
    var potentials := Candidates(chans, status);
    if potentials == [] then
      if chans == [] then None
      else
        var chan := Choice(chans, uSteal);
        Some(Pick(Choice([chan], uPick), Some(chan)))
    else
      assert chans != [];
      Some(Pick(Choice(potentials, uPick), None))
  }

  /** A channel is stolen exactly when every channel of the group answers
      that it is playing, and the stolen channel is the one played on. */
  lemma StealOnlyWhenAllBusy(chans: seq<int>, status: int -> ChannelStatus, uSteal: Draw, uPick: Draw)
    requires chans != []
    ensures var r := SelectChannel(chans, status, uSteal, uPick);
            r.Some? && (r.value.stopped.Some? <==> forall c :: c in chans ==> status(c) == Playing)
  {
    var r := SelectChannel(chans, status, uSteal, uPick);
    if forall c :: c in chans ==> status(c) == Playing {
      if Candidates(chans, status) != [] {
        var c := Candidates(chans, status)[0];
        CandidatesExactly(chans, status, c);
      }
    } else {
      var c :| c in chans && status(c) != Playing;
      CandidatesExactly(chans, status, c);
    }
  }

  /** The cutoff rule applied to a sound's low-pass filter, when it has one. */
  function Filtered(lp: Option<LowPass>, cutoff: real): (r: Option<LowPass>)
    ensures r.Some? <==> lp.Some?
    ensures r.Some? ==> (r.value.bypass <==> cutoff > BypassAbove)
  {
    if lp.Some? then Some(ApplyCutoff(lp.value, cutoff)) else None
  }

  /** The sound descriptor; `None` for an omitted key. */
  datatype SoundSpec = SoundSpec(name: string, position: Option<Vec3>, gain: Option<real>, frequency: Option<real>,
                                 filter: Option<real>, channelGroup: Option<string>, transient: Option<bool>)

  /** What the sound last wrote to its channel: the pitch factor its
      frequency was set from (`ChannelFrequency`), the position, and the
      volume (in decibels, before `from_dB`). */
  datatype ChannelOutput = ChannelOutput(pitch: real, position: Vec3, volumeDb: real)

  /** The channel frequency in hertz: the pitch factor times the sound
      file's base frequency. */
  function ChannelFrequency(o: ChannelOutput, baseFrequency: real): real
  {
    o.pitch * baseFrequency
  }

  /** The part of a sound `update` changes when its channel is live. */
  datatype VoiceState = VoiceState(gain: SmoothState, frequency: SmoothState, filterVal: SmoothState,
                         output: ChannelOutput, lowPass: Option<LowPass>)

  /** An interpolator `update` can step without dividing by zero. */
  predicate Steppable(s: SmoothState)
  {
    s.linear ==> s.time + Eps != 0.0
  }

  /** The effect of `update` with a live channel, given the automations'
      attribute table after their update: pitch and gain are stepped and
      written, then a filtered sound also steps its cutoff and applies the
      cutoff rule. */
  function Driven(v: VoiceState, c: SoundConfig, attrs: map<string, real>, dt: real, m: Maths): (r: VoiceState)
    requires Steppable(v.gain) && Steppable(v.frequency) && Steppable(v.filterVal)
  {
    var w := VoiceStepped(v, c, attrs, dt, m);
    if c.filterOn then FilterStepped(w, attrs, dt, m) else w
  }

  /** Pitch and gain are stepped; the channel gets the pitch times the base
      frequency, the held position moved by the automated offset, and the
      gain plus the automated gain. The filter is not touched. */
  function VoiceStepped(v: VoiceState, c: SoundConfig, attrs: map<string, real>, dt: real, m: Maths): (r: VoiceState)
    requires Steppable(v.gain) && Steppable(v.frequency)
    ensures r.gain == v.gain.Update(dt, m) && r.frequency == v.frequency.Update(dt, m)
    ensures r.output == ChannelOutput(r.frequency.state,
                                      Shift(c.position, AttrValue(attrs, "position")),
                                      r.gain.state + AttrValue(attrs, "gain"))
    ensures r.filterVal == v.filterVal && r.lowPass == v.lowPass
  {
    GainStepped(PitchStepped(v, c, attrs, dt, m), attrs, dt, m)
  }

  /** The pitch is stepped and written with the position. */
  function PitchStepped(v: VoiceState, c: SoundConfig, attrs: map<string, real>, dt: real, m: Maths): (r: VoiceState)
    requires Steppable(v.frequency)
  {
    var f := v.frequency.Update(dt, m);
    v.(frequency := f,
       output := v.output.(pitch := f.state,
                           position := Shift(c.position, AttrValue(attrs, "position"))))
  }

  /** The gain is stepped and written. */
  function GainStepped(v: VoiceState, attrs: map<string, real>, dt: real, m: Maths): (r: VoiceState)
    requires Steppable(v.gain)
  {
    var g := v.gain.Update(dt, m);
    v.(gain := g, output := v.output.(volumeDb := g.state + AttrValue(attrs, "gain")))
  }

  /** The cutoff is stepped and the cutoff rule applied to it plus the
      automated offset. Nothing else is touched. */
  function FilterStepped(v: VoiceState, attrs: map<string, real>, dt: real, m: Maths): (r: VoiceState)
    requires Steppable(v.filterVal)
    ensures r.gain == v.gain && r.frequency == v.frequency && r.output == v.output
  {
    var fv := v.filterVal.Update(dt, m);
    v.(filterVal := fv, lowPass := Filtered(v.lowPass, fv.state + AttrValue(attrs, "filter")))
  }

  /** The fields no method of the sound changes. */
  datatype SoundConfig = SoundConfig(name: string, dspJitter: nat, baseFrequency: real, position: Vec3,
                                     filterOn: bool, transient: bool, channelGroup: ChannelGroup?)

  /** What `spawn` did: nothing for a sound without a group, an `IndexError`
      for a group without channels, or a new sound on `channel`, after
      stopping `stopped`. */
  datatype SpawnOutcome = NoGroup | NoChannel | Spawned(sound: Sound, channel: int, stopped: Option<int>)

  /** The channel group a descriptor names: the group of that name when it
      exists, and none when the name is omitted or unknown. */
  function GroupOf(name: Option<string>, groups: map<string, ChannelGroup>): (g: ChannelGroup?)
    ensures g != null <==> name.Some? && name.value in groups
    ensures g != null ==> g == groups[name.value] && g in groups.Values
  {
    if name.Some? && name.value in groups then groups[name.value] else null
  }

  /** The three interpolators of a new sound: gain (linear, 0.05 s), pitch
      (exponential, 0.05 s) and, only when the descriptor has a `filter`,
      the cutoff (exponential, 0.01 s); without one the cutoff interpolator
      is a placeholder at 0 that nothing reads. */
  method NewInterpolators(spec: SoundSpec, m: Maths) returns (gain: SmoothVal, frequency: SmoothVal, filterVal: SmoothVal)
    ensures fresh(gain) && fresh(frequency) && fresh(filterVal)
    ensures gain != frequency && gain != filterVal && frequency != filterVal
    ensures gain.Snapshot() == Initial(OrElse(spec.gain, 0.0), 0.05, true, 0.0, m)
    ensures frequency.Snapshot() == Initial(OrElse(spec.frequency, 1.0), 0.05, false, 0.0, m)
    ensures filterVal.Snapshot() == if spec.filter.Some? then Initial(spec.filter.value, 0.01, false, 0.0, m)
                                    else Initial(0.0, 0.0, false, 0.0, m)
  {
    gain := new SmoothVal(OrElse(spec.gain, 0.0), 0.05, true, 0.0, m);
    frequency := new SmoothVal(OrElse(spec.frequency, 1.0), 0.05, false, 0.0, m);
    if spec.filter.Some? {
      filterVal := new SmoothVal(spec.filter.value, 0.01, false, 0.0, m);
    } else {
      filterVal := new SmoothVal(0.0, 0.0, false, 0.0, m);
    }
  }

  class Sound {
    var name: string
    var dspJitter: nat
    var baseFrequency: real
    /** The sound position. Only scalar smoothing is modelled, so the
        position is held at its value. */
    var position: Vec3
    var gain: SmoothVal
    var frequency: SmoothVal
    var filterVal: SmoothVal
    var filterOn: bool
    var finished: bool
    var channelGroup: ChannelGroup?
    var channelId: Option<int>
    var transient: bool
    var automations: AutomationGroup
    /** The DSP clock value the channel's start was last delayed to, and the
        two words passed for it. */
    var startDelay: int
    var delayWords: (int, int)
    /** The low-pass filter, once `assign_channel` has created it. */
    var lowPass: Option<LowPass>
    var output: ChannelOutput

    /** The sound holds a channel whose query succeeds. */
    predicate Live(status: int -> ChannelStatus)
      reads this
    {
      channelId.Some? && Queryable(status(channelId.value))
    }

    function Config(): SoundConfig
      reads this
    {
      SoundConfig(name, dspJitter, baseFrequency, position, filterOn, transient, channelGroup)
    }

    /** The interpolators, what was last written to the channel, and the
        low-pass filter. */
    ghost function Voice(): VoiceState
      reads this, gain, frequency, filterVal
    {
      VoiceState(gain.Snapshot(), frequency.Snapshot(), filterVal.Snapshot(), output, lowPass)
    }

    /** The interpolators are distinct objects that never divide by zero in
        linear mode, and a filtered sound holding a channel has its low-pass
        filter. */
    ghost predicate Valid()
      reads this, gain, frequency, filterVal
    {
      gain != frequency && gain != filterVal && frequency != filterVal &&
      (gain.linear ==> gain.time + Eps != 0.0) &&
      (frequency.linear ==> frequency.time + Eps != 0.0) &&
      (filterVal.linear ==> filterVal.time + Eps != 0.0) &&
      (filterOn && channelId.Some? ==> lowPass.Some?)
    }

    /** `Sound(sound_descriptor, channel_groups, ...)` up to the channel
        assignment of a non-transient sound (`NewSound`): the settings with
        their defaults, an interpolated cutoff only when the descriptor has a
        `filter`, and the channel group when the named one exists, which then
        records the sound. */
    constructor (spec: SoundSpec, groups: map<string, ChannelGroup>, baseFrequency: real, dspJitter: nat, m: Maths)
      modifies groups.Values
      ensures Valid()
      ensures Config() == SoundConfig(spec.name, dspJitter, baseFrequency, OrElse(spec.position, Vec3(0.0, 0.0, 0.0)),
                                      spec.filter.Some?, OrElse(spec.transient, false),
                                      GroupOf(spec.channelGroup, groups))
      ensures !finished && channelId == None && lowPass == None
      ensures fresh(gain) && fresh(frequency) && fresh(filterVal) && fresh(automations)
      ensures gain.Snapshot() == Initial(OrElse(spec.gain, 0.0), 0.05, true, 0.0, m)
      ensures frequency.Snapshot() == Initial(OrElse(spec.frequency, 1.0), 0.05, false, 0.0, m)
      ensures filterVal.Snapshot() == if spec.filter.Some? then Initial(spec.filter.value, 0.01, false, 0.0, m)
                                      else Initial(0.0, 0.0, false, 0.0, m)
      ensures automations.automations == map[] && automations.attrs == map[]
      ensures startDelay == 0 && delayWords == (0, 0) && output == ChannelOutput(0.0, position, 0.0)
      ensures forall g :: g in groups.Values ==>
                g.sounds == if g == channelGroup then old(g.sounds) + [this] else old(g.sounds)
    {
      name := spec.name;
      this.dspJitter := dspJitter;
      this.baseFrequency := baseFrequency;
      position := OrElse(spec.position, Vec3(0.0, 0.0, 0.0));
      var g, f, fv := NewInterpolators(spec, m);
      gain, frequency, filterVal := g, f, fv;
      finished := false;
      filterOn := spec.filter.Some?;
      channelGroup := GroupOf(spec.channelGroup, groups);
      channelId := None;
      transient := OrElse(spec.transient, false);
      automations := new AutomationGroup();
      startDelay := 0;
      delayWords := (0, 0);
      lowPass := None;
      output := ChannelOutput(0.0, position, 0.0);
      new;
      if channelGroup != null {
        channelGroup.RegisterSound(this);
      }
    }

    /** The copy `copy.deepcopy` makes in `spawn`: new interpolators and
        automation group with the same contents. The copy shares the
        channel group object, where `copy.deepcopy` also copies the group
        (with its sound list and subgroups) into a new object. */
    constructor Copy(other: Sound)
      requires other.Valid()
      ensures Valid()
      ensures Config() == other.Config() && finished == other.finished && channelId == other.channelId
      ensures startDelay == other.startDelay && delayWords == other.delayWords
      ensures lowPass == other.lowPass && output == other.output
      ensures fresh(gain) && fresh(frequency) && fresh(filterVal) && fresh(automations)
      ensures gain.Snapshot() == other.gain.Snapshot() && frequency.Snapshot() == other.frequency.Snapshot()
      ensures filterVal.Snapshot() == other.filterVal.Snapshot()
      ensures automations.automations == other.automations.automations && automations.attrs == other.automations.attrs
    {
      name := other.name;
      dspJitter := other.dspJitter;
      baseFrequency := other.baseFrequency;
      position := other.position;
      gain := new SmoothVal.Clone(other.gain);
      frequency := new SmoothVal.Clone(other.frequency);
      filterVal := new SmoothVal.Clone(other.filterVal);
      filterOn := other.filterOn;
      finished := other.finished;
      channelGroup := other.channelGroup;
      channelId := other.channelId;
      transient := other.transient;
      automations := new AutomationGroup.Clone(other.automations);
      startDelay := other.startDelay;
      delayWords := other.delayWords;
      lowPass := other.lowPass;
      output := other.output;
    }

    /** `assign_channel(channel_id)` given the DSP clock words and the draw
        behind `randint(0, dsp_jitter)`: the volume and the start delay
        `clock + randint(0, dsp_jitter)` are written to the channel; then a
        sound without a channel group raises (`ok` false) before anything
        else changes. Otherwise a filtered sound gets a new low-pass filter
        at the interpolated cutoff, and the channel becomes the sound's. */
    method AssignChannel(id: int, clockHi: int, clockLo: int, u: Draw) returns (ok: bool)
      requires Valid()
      requires 0 <= clockHi < TwoTo32 && 0 <= clockLo < TwoTo32
      modifies this
      ensures Valid()
      ensures startDelay == JitteredStart(clockHi, clockLo, dspJitter, u)
      ensures delayWords == (HiWord(startDelay), LoWord(startDelay))
      ensures output == old(output).(volumeDb := gain.state)
      ensures ok <==> channelGroup != null
      ensures ok ==> channelId == Some(id) &&
                     lowPass == if filterOn then Some(LowPass(false, filterVal.state)) else old(lowPass)
      ensures !ok ==> channelId == old(channelId) && lowPass == old(lowPass)
      ensures Config() == old(Config()) && finished == old(finished)
      ensures gain == old(gain) && frequency == old(frequency) && filterVal == old(filterVal)
      ensures automations == old(automations)
    {
      WriteStart(clockHi, clockLo, u);
      ok := Bind(id);
    }

    /** The writes `assign_channel` makes before it looks at the group: the
        volume and the jittered start delay. */
    method WriteStart(clockHi: int, clockLo: int, u: Draw)
      requires 0 <= clockHi < TwoTo32 && 0 <= clockLo < TwoTo32
      modifies this
      ensures startDelay == JitteredStart(clockHi, clockLo, dspJitter, u)
      ensures delayWords == (HiWord(startDelay), LoWord(startDelay))
      ensures output == old(output).(volumeDb := gain.state)
      ensures Config() == old(Config()) && finished == old(finished)
      ensures channelId == old(channelId) && lowPass == old(lowPass)
      ensures gain == old(gain) && frequency == old(frequency) && filterVal == old(filterVal)
      ensures automations == old(automations)
    {
      output := output.(volumeDb := gain.state);
      startDelay := JitteredStart(clockHi, clockLo, dspJitter, u);
      delayWords := (HiWord(startDelay), LoWord(startDelay));
    }

    /** The rest of `assign_channel`: raise without a channel group;
        otherwise create the low-pass filter of a filtered sound and take the
        channel. */
    method Bind(id: int) returns (ok: bool)
      requires Valid()
      modifies this
      ensures Valid()
      ensures ok <==> channelGroup != null
      ensures ok ==> channelId == Some(id) &&
                     lowPass == if filterOn then Some(LowPass(false, filterVal.state)) else old(lowPass)
      ensures !ok ==> channelId == old(channelId) && lowPass == old(lowPass)
      ensures Config() == old(Config()) && finished == old(finished) && output == old(output)
      ensures startDelay == old(startDelay) && delayWords == old(delayWords)
      ensures gain == old(gain) && frequency == old(frequency) && filterVal == old(filterVal)
      ensures automations == old(automations)
    {
      if channelGroup == null {
        return false;
      }
      if filterOn {
        lowPass := Some(LowPass(false, filterVal.state));
      }
      channelId := Some(id);
      ok := true;
    }

    /** `get_channel()`: no channel without an id; a channel whose query
        fails is dropped and marks the sound finished; otherwise the stored
        channel, which answers its query. */
    method GetChannel(status: int -> ChannelStatus) returns (ch: Option<int>)
      requires Valid()
      modifies this
      ensures Valid()
      ensures ch.Some? ==> ch == old(channelId) && Queryable(status(ch.value))
      ensures old(channelId).Some? ==> (ch.None? <==> !Queryable(status(old(channelId).value)))
      ensures channelId == ch
      ensures finished == (old(finished) || (old(channelId).Some? && ch.None?))
      ensures Config() == old(Config()) && lowPass == old(lowPass) && output == old(output)
      ensures startDelay == old(startDelay) && delayWords == old(delayWords)
      ensures gain == old(gain) && frequency == old(frequency) && filterVal == old(filterVal)
      ensures automations == old(automations)
    {
      if channelId.None? {
        return None;
      }
      if !Queryable(status(channelId.value)) {
        channelId := None;
        finished := true;
        return None;
      }
      ch := channelId;
    }

    /** `update(dt)`: look up the channel, update the automations whether or
        not there is one, and stop there without one. With a live channel,
        update pitch and gain and write frequency, position and volume; a
        filtered sound also updates its cutoff and applies the cutoff rule.
        Velocity estimation is not modelled. */
    method Update(dt: real, status: int -> ChannelStatus, draws: map<string, seq<Draw>>, m: Maths)
      requires Valid()
      requires forall k :: k in automations.automations ==>
                 k in draws && |draws[k]| > Depth(automations.automations[k]) &&
                 Step(automations.automations[k], dt, draws[k], m).Some?
      modifies this, gain, frequency, filterVal, automations
      ensures Valid()
      ensures Config() == old(Config())
      ensures gain == old(gain) && frequency == old(frequency) && filterVal == old(filterVal)
      ensures automations == old(automations)
      ensures startDelay == old(startDelay) && delayWords == old(delayWords)
      ensures automations.automations == StepAll(old(automations.automations), dt, draws, m)
      ensures automations.attrs == AttrTable(automations.automations, automations.automations.Keys)
      ensures channelId == (if old(Live(status)) then old(channelId) else None)
      ensures finished == (old(finished) || (old(channelId).Some? && !old(Live(status))))
      ensures Voice() == if old(Live(status)) then Driven(old(Voice()), Config(), automations.attrs, dt, m)
                         else old(Voice())
    {
      var ch := Refresh(dt, status, draws, m);
      if ch.Some? {
        Drive(dt, m);
      }
    }

    /** The first two steps of `update`: `get_channel()`, then the
        automations, which advance whether or not there is a channel. */
    method Refresh(dt: real, status: int -> ChannelStatus, draws: map<string, seq<Draw>>, m: Maths)
      returns (ch: Option<int>)
      requires Valid()
      requires forall k :: k in automations.automations ==>
                 k in draws && |draws[k]| > Depth(automations.automations[k]) &&
                 Step(automations.automations[k], dt, draws[k], m).Some?
      modifies this, automations
      ensures Valid()
      ensures Config() == old(Config()) && Voice() == old(Voice())
      ensures gain == old(gain) && frequency == old(frequency) && filterVal == old(filterVal)
      ensures automations == old(automations)
      ensures startDelay == old(startDelay) && delayWords == old(delayWords)
      ensures automations.automations == StepAll(old(automations.automations), dt, draws, m)
      ensures automations.attrs == AttrTable(automations.automations, automations.automations.Keys)
      ensures ch.Some? <==> old(Live(status))
      ensures channelId == ch && (ch.Some? ==> ch == old(channelId))
      ensures finished == (old(finished) || (old(channelId).Some? && ch.None?))
    {
      ch := GetChannel(status);
      automations.Update(dt, draws, m);
    }

    /** The part of `update` that runs with a live channel. */
    method Drive(dt: real, m: Maths)
      requires Valid() && channelId.Some?
      modifies this, gain, frequency, filterVal
      ensures Valid()
      ensures Config() == old(Config()) && channelId == old(channelId) && finished == old(finished)
      ensures gain == old(gain) && frequency == old(frequency) && filterVal == old(filterVal)
      ensures automations == old(automations)
      ensures startDelay == old(startDelay) && delayWords == old(delayWords)
      ensures Voice() == Driven(old(Voice()), Config(), automations.attrs, dt, m)
    {
      DriveVoice(dt, m);
      if filterOn {
        DriveFilter(dt, m);
      }
    }

    /** Pitch, position and gain. */
    method DriveVoice(dt: real, m: Maths)
      requires Valid()
      modifies this, gain, frequency
      ensures Valid()
      ensures Config() == old(Config()) && channelId == old(channelId) && finished == old(finished)
      ensures gain == old(gain) && frequency == old(frequency) && filterVal == old(filterVal)
      ensures automations == old(automations)
      ensures startDelay == old(startDelay) && delayWords == old(delayWords)
      ensures Voice() == VoiceStepped(old(Voice()), Config(), automations.attrs, dt, m)
    {
      DrivePitch(dt, m);
      DriveGain(dt, m);
    }

    method DrivePitch(dt: real, m: Maths)
      requires Valid()
      modifies this, frequency
      ensures Valid()
      ensures Config() == old(Config()) && channelId == old(channelId) && finished == old(finished)
      ensures gain == old(gain) && frequency == old(frequency) && filterVal == old(filterVal)
      ensures automations == old(automations)
      ensures startDelay == old(startDelay) && delayWords == old(delayWords)
      ensures Voice() == PitchStepped(old(Voice()), Config(), automations.attrs, dt, m)
    {
      frequency.Update(dt, m);
      var p := automations.Get("position");
      output := output.(pitch := frequency.state, position := Shift(position, p));
    }

    method DriveGain(dt: real, m: Maths)
      requires Valid()
      modifies this, gain
      ensures Valid()
      ensures Config() == old(Config()) && channelId == old(channelId) && finished == old(finished)
      ensures gain == old(gain) && frequency == old(frequency) && filterVal == old(filterVal)
      ensures automations == old(automations)
      ensures startDelay == old(startDelay) && delayWords == old(delayWords)
      ensures Voice() == GainStepped(old(Voice()), automations.attrs, dt, m)
    {
      gain.Update(dt, m);
      var g := automations.Get("gain");
      output := output.(volumeDb := gain.state + g);
    }

    /** The filter part of `update`, for a filtered sound with a live
        channel. */
    method DriveFilter(dt: real, m: Maths)
      requires Valid() && filterOn && channelId.Some?
      modifies this, filterVal
      ensures Valid()
      ensures Config() == old(Config()) && channelId == old(channelId) && finished == old(finished)
      ensures gain == old(gain) && frequency == old(frequency) && filterVal == old(filterVal)
      ensures automations == old(automations)
      ensures startDelay == old(startDelay) && delayWords == old(delayWords)
      ensures Voice() == FilterStepped(old(Voice()), automations.attrs, dt, m)
    {
      filterVal.Update(dt, m);
      var f := automations.Get("filter");
      var cutoff := filterVal.state + f;
      if cutoff > BypassAbove {
        lowPass := Some(lowPass.value.(bypass := true));
      } else {
        lowPass := Some(LowPass(false, cutoff));
      }
    }

    /** `spawn()` given what the group's channels answer, the draws of its
        two `random.choice` calls and of the jitter, and the DSP clock words:
        nothing without a channel group; otherwise a copy of this sound
        assigned to the channel `SelectChannel` picks, after stopping the
        stolen channel if there was one. This sound does not change. */
    method Spawn(status: int -> ChannelStatus, uSteal: Draw, uPick: Draw, clockHi: int, clockLo: int, uJitter: Draw)
      returns (r: SpawnOutcome)
      requires Valid()
      requires 0 <= clockHi < TwoTo32 && 0 <= clockLo < TwoTo32
      ensures channelGroup == null ==> r == NoGroup
      ensures channelGroup != null && SelectChannel(channelGroup.subChannels, status, uSteal, uPick).None? ==>
                r == NoChannel
      ensures channelGroup != null && SelectChannel(channelGroup.subChannels, status, uSteal, uPick).Some? ==>
                var pick := SelectChannel(channelGroup.subChannels, status, uSteal, uPick).value;
                r.Spawned? && r.channel == pick.channel && r.stopped == pick.stopped &&
                fresh(r.sound) && r.sound.Valid() &&
                r.sound.Config() == Config() && r.sound.channelId == Some(pick.channel) &&
                r.sound.finished == finished &&
                r.sound.startDelay == JitteredStart(clockHi, clockLo, dspJitter, uJitter) &&
                r.sound.gain.Snapshot() == gain.Snapshot() && r.sound.frequency.Snapshot() == frequency.Snapshot() &&
                r.sound.filterVal.Snapshot() == filterVal.Snapshot() &&
                fresh(r.sound.automations) && r.sound.automations.automations == automations.automations &&
                r.sound.automations.attrs == automations.attrs &&
                r.sound.output == output.(volumeDb := gain.state) &&
                r.sound.delayWords == (HiWord(r.sound.startDelay), LoWord(r.sound.startDelay)) &&
                r.sound.lowPass == if filterOn then Some(LowPass(false, filterVal.state)) else lowPass
    {
      if channelGroup == null {
        return NoGroup;
      }
      var chans := channelGroup.subChannels;
      var potentials := FreeChannels(chans, status);
      var stopped: Option<int> := None;
      if |potentials| == 0 {
        if |chans| == 0 {
          return NoChannel;
        }
        var chan := Choice(chans, uSteal);
        stopped := Some(chan);
        potentials := potentials + [chan];
      }
      var channel := Choice(potentials, uPick);
      var copy := new Sound.Copy(this);
      var ok := copy.AssignChannel(channel, clockHi, clockLo, uJitter);
      r := Spawned(copy, channel, stopped);
    }
  }

  /** `Sound(...)` in full: construction, then, for a sound that is not
      transient, a channel from `new_channel` assigned at once. A
      non-transient sound without a channel group raises in that assignment
      (`None`), after the group lookup has already happened. */
  method NewSound(spec: SoundSpec, groups: map<string, ChannelGroup>, counter: ChannelCounter, baseFrequency: real,
                  dspJitter: nat, clockHi: int, clockLo: int, u: Draw, m: Maths)
    returns (r: Option<Sound>)
    requires counter.Valid()
    requires 0 <= clockHi < TwoTo32 && 0 <= clockLo < TwoTo32
    modifies groups.Values, counter
    ensures counter.Valid()
    ensures r.None? <==> !OrElse(spec.transient, false) &&
                         !(spec.channelGroup.Some? && spec.channelGroup.value in groups)
    ensures OrElse(spec.transient, false) ==> counter.issued == old(counter.issued)
    ensures !OrElse(spec.transient, false) ==> counter.issued == old(counter.issued) + [old(counter.channelPtr)]
    ensures r.Some? ==> fresh(r.value) && r.value.Valid() && !r.value.finished
    ensures r.Some? && OrElse(spec.transient, false) ==> r.value.channelId == None
    ensures r.Some? && !OrElse(spec.transient, false) ==> r.value.channelId == Some(old(counter.channelPtr))
    ensures r.Some? ==>
              r.value.Config() == SoundConfig(spec.name, dspJitter, baseFrequency, OrElse(spec.position, Vec3(0.0, 0.0, 0.0)),
                                              spec.filter.Some?, OrElse(spec.transient, false),
                                              GroupOf(spec.channelGroup, groups))
    ensures r.Some? ==>
              fresh(r.value.gain) && fresh(r.value.frequency) && fresh(r.value.filterVal) && fresh(r.value.automations) &&
              r.value.gain.Snapshot() == Initial(OrElse(spec.gain, 0.0), 0.05, true, 0.0, m) &&
              r.value.frequency.Snapshot() == Initial(OrElse(spec.frequency, 1.0), 0.05, false, 0.0, m) &&
              r.value.filterVal.Snapshot() == (if spec.filter.Some? then Initial(spec.filter.value, 0.01, false, 0.0, m)
                                               else Initial(0.0, 0.0, false, 0.0, m)) &&
              r.value.automations.automations == map[] && r.value.automations.attrs == map[]
    ensures r.Some? && OrElse(spec.transient, false) ==>
              r.value.startDelay == 0 && r.value.delayWords == (0, 0) && r.value.lowPass == None &&
              r.value.output == ChannelOutput(0.0, r.value.position, 0.0)
    ensures r.Some? && !OrElse(spec.transient, false) ==>
              r.value.startDelay == JitteredStart(clockHi, clockLo, dspJitter, u) &&
              r.value.delayWords == (HiWord(r.value.startDelay), LoWord(r.value.startDelay)) &&
              r.value.lowPass == (if spec.filter.Some? then Some(LowPass(false, r.value.filterVal.state)) else None) &&
              r.value.output == ChannelOutput(0.0, r.value.position, r.value.gain.state)
    ensures r.Some? ==> forall g :: g in groups.Values ==>
              g.sounds == if g == r.value.channelGroup then old(g.sounds) + [r.value] else old(g.sounds)
    ensures r.None? ==> forall g :: g in groups.Values ==> g.sounds == old(g.sounds)
  {
    var s := new Sound(spec, groups, baseFrequency, dspJitter, m);
    if !s.transient {
      var c := counter.NewChannel();
      var ok := s.AssignChannel(c, clockHi, clockLo, u);
      if !ok {
        return None;
      }
    }
    r := Some(s);
  }
}
