/** Channel groups: a named mixing group with its own gain, pitch, low-pass
    cutoff and position, a pool of transient channel numbers, links to its
    subgroups and parent, and the sounds registered with it. The FMOD group
    and DSP objects are represented by what the server last wrote to them
    (`GroupOutput` and `LowPass`). */
module ChannelGroups {
  import opened Wrappers
  import opened Numerics
  import opened Smooth
  import opened AutoSounds
  import opened SoundGlobalState

  /** The low-pass DSP as the server leaves it: whether it is bypassed, and
      the cutoff parameter last written to it. */
  datatype LowPass = LowPass(bypass: bool, cutoff: real)

  /** Cutoffs above this many hertz switch the low-pass filter off. */
  const BypassAbove: real := 20000.0

  /** The cutoff rule shared by groups and sounds: a cutoff above 20000
      bypasses the filter and leaves its parameter alone; any other cutoff
      enables the filter and is written to it. */
  function ApplyCutoff(f: LowPass, cutoff: real): (r: LowPass)
    ensures r.bypass <==> cutoff > BypassAbove
    ensures !r.bypass ==> r.cutoff == cutoff
    ensures r.bypass ==> r.cutoff == f.cutoff
  {
    if cutoff > BypassAbove then LowPass(true, f.cutoff) else LowPass(false, cutoff)
  }

  /** Applying the same cutoff twice is applying it once, and after any
      cutoff at most 20000 the filter is on at exactly that cutoff, whatever
      state it was in. */
  lemma CutoffRuleSettles(f: LowPass, g: LowPass, cutoff: real)
    ensures ApplyCutoff(ApplyCutoff(f, cutoff), cutoff) == ApplyCutoff(f, cutoff)
    ensures cutoff <= BypassAbove ==> ApplyCutoff(f, cutoff) == ApplyCutoff(g, cutoff) == LowPass(false, cutoff)
  {}

  /** `np.array(p) + s` for a scalar `s`: every axis moves by `s`. */
  function Shift(p: Vec3, s: real): (q: Vec3)
    ensures q.x - p.x == q.y - p.y == q.z - p.z == s
  {
    Vec3(p.x + s, p.y + s, p.z + s)
  }

  /** The group description; `None` for an omitted key. */
  datatype GroupSpec = GroupSpec(name: string, subgroups: Option<seq<string>>, mute: Option<bool>,
                                 gain: Option<real>, frequency: Option<real>, filter: Option<real>,
                                 transientChannels: Option<int>)

  /** What `update` last wrote to the FMOD group: the mute flag, the volume
      (in decibels, before `from_dB`), the pitch, and the 3-D position
      override (`None` when it is cleared). */
  datatype GroupOutput = GroupOutput(mute: bool, volumeDb: real, pitch: real, override3d: Option<Vec3>)

  /** The subgroups that exist, in the listed order. */
  function Listed(names: seq<string>, groups: map<string, ChannelGroup>): (r: seq<ChannelGroup>)
    ensures |r| <= |names|
    ensures forall g :: g in r ==> g in groups.Values
  {
    if names == [] then []
    else
      var prior := Listed(names[..|names| - 1], groups);
      var n := names[|names| - 1];
      if n in groups then prior + [groups[n]] else prior
  }

  /** The linked groups are exactly the groups of the listed names that
      exist. */
  lemma {:induction false} ListedExactly(names: seq<string>, groups: map<string, ChannelGroup>)
    ensures forall g :: g in Listed(names, groups) ==> exists n :: n in names && n in groups && groups[n] == g
    ensures forall n :: n in names && n in groups ==> groups[n] in Listed(names, groups)
  {
    if names != [] {
      var init := names[..|names| - 1];
      ListedExactly(init, groups);
      assert forall x :: x in names <==> x in init || x == names[|names| - 1];
    }
  }

  /** A subgroup name missing from the map adds nothing; a present one adds
      exactly its group, at the end. */
  lemma ListedStep(names: seq<string>, n: string, groups: map<string, ChannelGroup>)
    ensures n !in groups ==> Listed(names + [n], groups) == Listed(names, groups)
    ensures n in groups ==> Listed(names + [n], groups) == Listed(names, groups) + [groups[n]]
  {
    assert (names + [n])[..|names|] == names;
  }

  /** The fields `update`, `setup_subgroups` and `register_sound` leave
      alone. */
  datatype GroupSettings = GroupSettings(name: string, positionSet: bool, subgroups: seq<string>, position: Vec3,
                                         muted: bool, gain: SmoothVal, frequency: SmoothVal, filterVal: SmoothVal,
                                         transientChannels: int, subChannels: seq<int>, automations: AutomationGroup)

  /** The loop of the group constructor that asks `new_channel` for `n`
      transient channels (none when `n` is not positive): consecutive numbers
      starting at the counter's pointer, none of them handed out before. */
  method NewChannels(counter: ChannelCounter, n: int) returns (chans: seq<int>)
    requires counter.Valid()
    modifies counter
    ensures counter.Valid()
    ensures |chans| == if n < 0 then 0 else n
    ensures counter.issued == old(counter.issued) + chans
    ensures forall i :: 0 <= i < |chans| ==> chans[i] == old(counter.channelPtr) + i
    ensures forall c :: c in chans ==> c !in old(counter.issued)
  {
    chans := [];
    var i := 0;
    while i < n
      invariant counter.Valid()
      invariant 0 <= i == |chans|
      invariant n >= 0 ==> i <= n
      invariant n < 0 ==> i == 0
      invariant counter.issued == old(counter.issued) + chans
      invariant forall j :: 0 <= j < |chans| ==> chans[j] == old(counter.channelPtr) + j
      invariant counter.channelPtr == old(counter.channelPtr) + |chans|
    {
      var chan := counter.NewChannel();
      chans := chans + [chan];
      i := i + 1;
    }
    forall c | c in chans
      ensures c !in old(counter.issued)
    {
      var j :| 0 <= j < |chans| && chans[j] == c;
      assert c >= old(counter.channelPtr);
    }
  }

  class ChannelGroup {
    var name: string
    var positionSet: bool
    var subgroups: seq<string>
    /** The group position. Only scalar smoothing is modelled, so the
        position is held at its value. */
    var position: Vec3
    var muted: bool
    var gain: SmoothVal
    var frequency: SmoothVal
    var filterVal: SmoothVal
    var parent: ChannelGroup?
    var subGroupChannels: seq<ChannelGroup>
    var transientChannels: int
    var subChannels: seq<int>
    var automations: AutomationGroup
    var sounds: seq<object>
    var lowPass: LowPass
    var output: GroupOutput

    function Settings(): GroupSettings
      reads this
    {
      GroupSettings(name, positionSet, subgroups, position, muted, gain, frequency, filterVal,
                    transientChannels, subChannels, automations)
    }

    /** The three interpolators are distinct objects, and none of them would
        divide by zero in linear mode. */
    ghost predicate Valid()
      reads this, gain, frequency, filterVal
    {
      gain != frequency && gain != filterVal && frequency != filterVal &&
      (gain.linear ==> gain.time + Eps != 0.0) &&
      (frequency.linear ==> frequency.time + Eps != 0.0) &&
      (filterVal.linear ==> filterVal.time + Eps != 0.0)
    }

    /** `ChannelGroup(ch_group)`: the settings with their defaults, no
        parent and no subgroups linked yet, exactly `transient_channels`
        fresh channel numbers in the order `new_channel` hands them out (none
        for a negative count), the low-pass filter set to the initial
        cutoff, and then one `update(0.0)`. */
    constructor (spec: GroupSpec, counter: ChannelCounter, m: Maths)
      requires counter.Valid()
      modifies counter
      ensures Valid() && counter.Valid()
      ensures name == spec.name && subgroups == OrElse(spec.subgroups, []) && muted == OrElse(spec.mute, false)
      ensures !positionSet && position == Vec3(0.0, 0.0, 0.0)
      ensures parent == null && subGroupChannels == [] && sounds == []
      ensures fresh(gain) && fresh(frequency) && fresh(filterVal) && fresh(automations)
      ensures gain.Snapshot() == Initial(OrElse(spec.gain, 0.0), 0.01, true, 0.0, m).Update(0.0, m)
      ensures frequency.Snapshot() == Initial(OrElse(spec.frequency, 1.0), 0.05, false, 0.0, m).Update(0.0, m)
      ensures filterVal.Snapshot() == Initial(OrElse(spec.filter, 48000.0), 0.01, false, 0.0, m).Update(0.0, m)
      ensures automations.automations == map[] && automations.attrs == map[]
      ensures transientChannels == OrElse(spec.transientChannels, 0)
      ensures |subChannels| == if transientChannels < 0 then 0 else transientChannels
      ensures counter.issued == old(counter.issued) + subChannels
      ensures forall i :: 0 <= i < |subChannels| ==> subChannels[i] == old(counter.channelPtr) + i
      ensures forall c :: c in subChannels ==> c !in old(counter.issued)
      ensures lowPass == ApplyCutoff(LowPass(false, OrElse(spec.filter, 48000.0)), filterVal.state)
      ensures output == GroupOutput(muted, gain.state, frequency.state, None)
    {
      var chans := NewChannels(counter, OrElse(spec.transientChannels, 0));
      name := spec.name;
      positionSet := false;
      subgroups := OrElse(spec.subgroups, []);
      position := Vec3(0.0, 0.0, 0.0);
      muted := OrElse(spec.mute, false);
      gain := new SmoothVal(OrElse(spec.gain, 0.0), 0.01, true, 0.0, m);
      frequency := new SmoothVal(OrElse(spec.frequency, 1.0), 0.05, false, 0.0, m);
      parent := null;
      filterVal := new SmoothVal(OrElse(spec.filter, 48000.0), 0.01, false, 0.0, m);
      lowPass := LowPass(false, OrElse(spec.filter, 48000.0));
      subGroupChannels := [];
      transientChannels := OrElse(spec.transientChannels, 0);
      subChannels := chans;
      automations := new AutomationGroup();
      sounds := [];
      output := GroupOutput(false, 0.0, 0.0, None);
      new;
      FirstUpdate(m);
    }

    /** The `update(0.0)` that ends the constructor, while the group has no
        automations: no attribute offsets, so the output is the smoothed
        values as they stand. */
    method FirstUpdate(m: Maths)
      requires Valid() && automations.automations == map[] && !positionSet
      modifies this, gain, frequency, filterVal, automations
      ensures Valid()
      ensures Settings() == old(Settings()) && parent == old(parent)
      ensures subGroupChannels == old(subGroupChannels) && sounds == old(sounds)
      ensures automations.automations == map[] && automations.attrs == map[]
      ensures gain.Snapshot() == old(gain.Snapshot()).Update(0.0, m)
      ensures frequency.Snapshot() == old(frequency.Snapshot()).Update(0.0, m)
      ensures filterVal.Snapshot() == old(filterVal.Snapshot()).Update(0.0, m)
      ensures output == GroupOutput(muted, gain.state, frequency.state, None)
      ensures lowPass == ApplyCutoff(old(lowPass), filterVal.state)
    {
      Update(0.0, map[], m);
      assert automations.automations == map[];
      assert automations.attrs == map[];
    }

    /** `setup_subgroups(channel_groups)`: link every listed subgroup that
        exists, in order, and make this group its parent; names that do not
        exist are skipped. The `modifies` clause names the only two fields
        that may change, this group's subgroup list and the groups' `parent`,
        so nothing else changes, here or in the other groups. */
    method SetupSubgroups(groups: map<string, ChannelGroup>)
      modifies this`subGroupChannels, groups.Values`parent
      ensures subGroupChannels == old(subGroupChannels) + Listed(subgroups, groups)
      ensures forall g :: g in groups.Values ==>
                g.parent == if g in Listed(subgroups, groups) then this else old(g.parent)
      ensures this !in groups.Values ==> parent == old(parent)
      ensures Settings() == old(Settings())
    {
      var names := subgroups;
      ghost var linked: seq<ChannelGroup> := [];
      var i := 0;
      while i < |names|
        invariant 0 <= i <= |names|
        invariant linked == Listed(names[..i], groups)
        invariant subGroupChannels == old(subGroupChannels) + linked
        invariant forall g :: g in groups.Values ==> g.parent == if g in linked then this else old(g.parent)
      {
        var n := names[i];
        assert names[..i + 1] == names[..i] + [n];
        ListedStep(names[..i], n, groups);
        LinkNamed(n, groups);
        linked := linked + if n in groups then [groups[n]] else [];
        i := i + 1;
      }
      assert names[..i] == names;
    }

    /** One name of `setup_subgroups`: link the group of that name if it
        exists. */
    method LinkNamed(n: string, groups: map<string, ChannelGroup>)
      modifies this`subGroupChannels, groups.Values`parent
      ensures n in groups ==> subGroupChannels == old(subGroupChannels) + [groups[n]]
      ensures n !in groups ==> subGroupChannels == old(subGroupChannels)
      ensures forall g :: g in groups.Values ==>
                g.parent == if n in groups && g == groups[n] then this else old(g.parent)
      ensures this !in groups.Values ==> parent == old(parent)
    {
      if n in groups {
        Link(groups[n]);
      }
    }

    /** One step of `setup_subgroups`: record `g` as a subgroup and make this
        group its parent; no other field of either group changes. */
    method Link(g: ChannelGroup)
      modifies this`subGroupChannels, g`parent
      ensures subGroupChannels == old(subGroupChannels) + [g] && g.parent == this
      ensures g != this ==> parent == old(parent)
      ensures Settings() == old(Settings())
    {
      subGroupChannels := subGroupChannels + [g];
      g.parent := this;
    }

    /** `register_sound(sound)`: append the sound and change nothing else. */
    method RegisterSound(sound: object)
      modifies this
      ensures sounds == old(sounds) + [sound]
      ensures Settings() == old(Settings()) && parent == old(parent) && subGroupChannels == old(subGroupChannels)
      ensures lowPass == old(lowPass) && output == old(output)
    {
      sounds := sounds + [sound];
    }

    /** `update(dt)`: update the automations and the three interpolators,
        write the mute flag, the volume, the pitch and, only when a position
        has been set, the 3-D override (cleared otherwise), then apply the
        cutoff rule to the interpolated cutoff plus the automations' filter
        value. Velocity estimation is not modelled. */
    method Update(dt: real, draws: map<string, seq<Draw>>, m: Maths)
      requires Valid()
      requires forall k :: k in automations.automations ==>
                 k in draws && |draws[k]| > Depth(automations.automations[k]) &&
                 Step(automations.automations[k], dt, draws[k], m).Some?
      modifies this, gain, frequency, filterVal, automations
      ensures Valid()
      ensures Settings() == old(Settings()) && parent == old(parent)
      ensures subGroupChannels == old(subGroupChannels) && sounds == old(sounds)
      ensures automations.automations == StepAll(old(automations.automations), dt, draws, m)
      ensures automations.attrs == AttrTable(automations.automations, automations.automations.Keys)
      ensures gain.Snapshot() == old(gain.Snapshot()).Update(dt, m)
      ensures frequency.Snapshot() == old(frequency.Snapshot()).Update(dt, m)
      ensures filterVal.Snapshot() == old(filterVal.Snapshot()).Update(dt, m)
      ensures output == GroupOutput(muted, gain.state + AttrValue(automations.attrs, "gain"), frequency.state,
                                    if positionSet then Some(Shift(position, AttrValue(automations.attrs, "position")))
                                    else None)
      ensures lowPass == ApplyCutoff(old(lowPass), filterVal.state + AttrValue(automations.attrs, "filter"))
    {
      automations.Update(dt, draws, m);
      gain.Update(dt, m);
      filterVal.Update(dt, m);
      frequency.Update(dt, m);
      Emit();
    }

    /** The writes at the end of `update`: mute, volume, pitch and the 3-D
        override to the group, then the cutoff rule to the low-pass filter. */
    method Emit()
      modifies this
      ensures Settings() == old(Settings()) && parent == old(parent)
      ensures subGroupChannels == old(subGroupChannels) && sounds == old(sounds)
      ensures output == GroupOutput(muted, gain.state + AttrValue(automations.attrs, "gain"), frequency.state,
                                    if positionSet then Some(Shift(position, AttrValue(automations.attrs, "position")))
                                    else None)
      ensures lowPass == ApplyCutoff(old(lowPass), filterVal.state + AttrValue(automations.attrs, "filter"))
    {
      var g := automations.Get("gain");
      var p := automations.Get("position");
      var override := if positionSet then Some(Shift(position, p)) else None;
      output := GroupOutput(muted, gain.state + g, frequency.state, override);
      var f := automations.Get("filter");
      var cutoff := filterVal.state + f;
      if cutoff > BypassAbove {
        lowPass := lowPass.(bypass := true);
      } else {
        lowPass := LowPass(false, cutoff);
      }
    }
  }
}
