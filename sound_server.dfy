/** The server's own bookkeeping: merging and overriding configuration
    dictionaries, unique names for spawned sounds, OSC address
    normalisation, sound pools, the automation attachment table, burst
    switching, and the rule that removes finished sounds in `update`. */
module Server {
  import opened Wrappers
  import opened Numerics
  import opened Text
  import opened AutoSounds
  import opened SoundObject

  /** A configuration value as YAML loads it: a nested dictionary, or any
      other value (kept as its text). */
  datatype Node = Leaf(text: string) | Dict(fields: map<string, Node>)

  /** `dict(mergedicts(dict1, dict2))`: every key of either dictionary; a key
      in both whose two values are dictionaries holds their merge, any other
      key in both holds `dict2`'s value, and a key in one keeps its value. */
  function MergeDicts(d1: map<string, Node>, d2: map<string, Node>): (r: map<string, Node>)
    ensures r.Keys == d1.Keys + d2.Keys
    decreases Dict(d1)
  {
    map k | k in d1.Keys + d2.Keys ::
      if k in d1 && k in d2 then
        if d1[k].Dict? && d2[k].Dict? then Dict(MergeDicts(d1[k].fields, d2[k].fields)) else d2[k]
      else if k in d1 then d1[k] else d2[k]
  }

  /** The value at a key path through nested dictionaries, if there is one. */
  function Find(d: map<string, Node>, path: seq<string>): Option<Node>
    requires |path| >= 1
    decreases |path|
  {
    if path[0] !in d then None
    else if |path| == 1 then Some(d[path[0]])
    else if d[path[0]].Dict? then Find(d[path[0]].fields, path[1..])
    else None
  }

  /** The later configuration wins: every non-dictionary value the second
      dictionary holds, at any depth, is in the merge at the same place. */
  lemma {:induction false} LaterLeafWins(d1: map<string, Node>, d2: map<string, Node>, path: seq<string>)
    requires |path| >= 1 && Find(d2, path).Some? && Find(d2, path).value.Leaf?
    ensures Find(MergeDicts(d1, d2), path) == Find(d2, path)
    decreases |path|
  {
    var k := path[0];
    if |path| > 1 && k in d1 && d1[k].Dict? {
      LaterLeafWins(d1[k].fields, d2[k].fields, path[1..]);
    }
  }

  /** The earlier configuration is kept where the later one is silent: a
      value the first dictionary holds at a key path, at any depth, is in
      the merge at the same place when the second holds nothing there and
      replaces no dictionary on the way by a plain value. */
  lemma {:induction false} EarlierKeptWhereUnset(d1: map<string, Node>, d2: map<string, Node>, path: seq<string>)
    requires |path| >= 1 && Find(d1, path).Some? && Find(d2, path).None?
    requires forall i :: 1 <= i < |path| ==> !(Find(d2, path[..i]).Some? && Find(d2, path[..i]).value.Leaf?)
    ensures Find(MergeDicts(d1, d2), path) == Find(d1, path)
    decreases |path|
  {
    var k := path[0];
    if k in d2 {
      assert |path| > 1;
      assert path[..1] == [k];
      assert Find(d2, path[..1]) == Some(d2[k]);
      var rest := path[1..];
      forall i | 1 <= i < |rest|
        ensures !(Find(d2[k].fields, rest[..i]).Some? && Find(d2[k].fields, rest[..i]).value.Leaf?)
      {
        assert path[..i + 1][1..] == rest[..i] && path[..i + 1][0] == k;
        assert Find(d2, path[..i + 1]) == Find(d2[k].fields, rest[..i]);
      }
      EarlierKeptWhereUnset(d1[k].fields, d2[k].fields, rest);
    }
  }

  /** Merging a configuration with itself gives it back. */
  lemma {:induction false} MergeSelf(d: map<string, Node>)
    ensures MergeDicts(d, d) == d
    decreases Dict(d)
  {
    forall k | k in d && d[k].Dict?
      ensures MergeDicts(d[k].fields, d[k].fields) == d[k].fields
    {
      MergeSelf(d[k].fields);
    }
  }

  /** The empty configuration is neutral on both sides. */
  lemma MergeEmpty(d: map<string, Node>)
    ensures MergeDicts(d, map[]) == d && MergeDicts(map[], d) == d
  {}

  /** What `replace_from_yaml(defaults, replacement)` leaves in `defaults`:
      the same keys, each with the replacement's value where it has one. */
  function Replaced<V>(defaults: map<string, V>, replacement: map<string, V>): (r: map<string, V>)
    ensures r.Keys == defaults.Keys
  {
    map k | k in defaults :: if k in replacement then replacement[k] else defaults[k]
  }

  /** Replacing twice with the same replacement is replacing once, keys the
      defaults do not have make no difference, and an empty replacement
      changes nothing. */
  lemma ReplacedLaws<V>(defaults: map<string, V>, replacement: map<string, V>)
    ensures Replaced(Replaced(defaults, replacement), replacement) == Replaced(defaults, replacement)
    ensures Replaced(defaults, replacement) ==
            Replaced(defaults, map k | k in replacement && k in defaults :: replacement[k])
    ensures Replaced(defaults, map[]) == defaults
  {}

  /** On the keys of the defaults, replacing agrees with merging when no
      value on either side is a dictionary. */
  lemma ReplacedIsShallowMerge(defaults: map<string, Node>, replacement: map<string, Node>)
    requires forall k :: k in defaults ==> defaults[k].Leaf?
    ensures forall k :: k in defaults ==> Replaced(defaults, replacement)[k] == MergeDicts(defaults, replacement)[k]
  {}

  /** `replace_from_yaml(defaults, replacement)`: overwrite each default key
      in turn, returning the new contents of `defaults`. */
  method ReplaceFromYaml<V>(defaults: map<string, V>, replacement: map<string, V>) returns (r: map<string, V>)
    ensures r == Replaced(defaults, replacement)
  {
    r := defaults;
    var todo := defaults.Keys;
    while todo != {}
      invariant todo <= defaults.Keys && r.Keys == defaults.Keys
      invariant forall k :: k in defaults && k !in todo ==> r[k] == Replaced(defaults, replacement)[k]
      invariant forall k :: k in todo ==> r[k] == defaults[k]
      decreases todo
    {
      var key :| key in todo;
      r := r[key := if key in replacement then replacement[key] else r[key]];
      todo := todo - {key};
    }
  }

  /** `'/' + '/'.join(addr.split('/')[1:])`: the address with everything up
      to its first `/` replaced by a single `/`. */
  function NormaliseAddress(addr: string): (r: string)
    ensures |r| >= 1 && r[0] == '/'
  {
    "/" + Join(Split(addr, '/')[1..], '/')
  }

  /** Splitting at the first separator: the part before it, then the pieces
      of the rest. */
  lemma {:induction false} SplitAtFirst(head: string, rest: string)
    requires '/' !in head
    ensures Split(head + "/" + rest, '/') == [head] + Split(rest, '/')
  {
    if head == [] {
      assert head + "/" + rest == "/" + rest;
      SplitLeadingSeparator("/" + rest, '/');
      assert ("/" + rest)[1..] == rest;
    } else {
      var s := head + "/" + rest;
      assert s[1..] == head[1..] + "/" + rest;
      SplitAtFirst(head[1..], rest);
      assert [head[0]] + head[1..] == head;
    }
  }

  /** Normalisation drops exactly the text before the first `/`: an address
      that already starts with `/` is unchanged, and one without any `/`
      becomes the bare `/`. */
  lemma NormaliseDropsFirstSegment(head: string, rest: string)
    requires '/' !in head
    ensures NormaliseAddress(head + "/" + rest) == "/" + rest
  {
    SplitAtFirst(head, rest);
    assert Split(head + "/" + rest, '/')[1..] == Split(rest, '/');
    JoinSplit(rest, '/');
  }

  lemma RootedAddressUnchanged(addr: string)
    requires |addr| >= 1 && addr[0] == '/'
    ensures NormaliseAddress(addr) == addr
  {
    assert addr == [] + "/" + addr[1..];
    NormaliseDropsFirstSegment([], addr[1..]);
  }

  lemma NormaliseIdempotent(addr: string)
    ensures NormaliseAddress(NormaliseAddress(addr)) == NormaliseAddress(addr)
  {
    RootedAddressUnchanged(NormaliseAddress(addr));
  }

  lemma {:induction false} UnslashedAddressIsRoot(addr: string)
    requires '/' !in addr
    ensures NormaliseAddress(addr) == "/"
  {
    SplitWithoutSeparator(addr);
  }

  lemma {:induction false} SplitWithoutSeparator(s: string)
    requires '/' !in s
    ensures Split(s, '/') == [s]
  {
    if s != [] {
      assert s[0] != '/' && forall i :: 0 <= i < |s| - 1 ==> s[1..][i] == s[i + 1];
      SplitWithoutSeparator(s[1..]);
      assert [s[0]] + s[1..] == s;
    }
  }

  /** The name `unique_name` returns for counter value `n`. */
  function NameFor(n: nat): (s: string)
    ensures |s| >= 11 && s[..5] == "name_"
  {
    "name_" + ZeroPad(n, 6)
  }

  /** Different counter values give different names. */
  lemma NameForInjective(m: nat, n: nat)
    ensures NameFor(m) == NameFor(n) <==> m == n
  {
    if NameFor(m) == NameFor(n) {
      assert NameFor(m)[5..] == ZeroPad(m, 6);
      assert NameFor(n)[5..] == ZeroPad(n, 6);
      ZeroPadInjective(m, n, 6);
    }
  }

  /** The names of the first `n` calls of `unique_name`. */
  function NamesUpTo(n: nat): (r: seq<string>)
    ensures |r| == n
    ensures forall i :: 0 <= i < n ==> r[i] == NameFor(i + 1)
  {
    if n == 0 then [] else NamesUpTo(n - 1) + [NameFor(n)]
  }

  /** No name is handed out twice. */
  lemma NamesUpToDistinct(n: nat)
    ensures forall i, j :: 0 <= i < j < n ==> NamesUpTo(n)[i] != NamesUpTo(n)[j]
  {
    forall i, j | 0 <= i < j < n
      ensures NamesUpTo(n)[i] != NamesUpTo(n)[j]
    {
      NameForInjective(i + 1, j + 1);
    }
  }

  /** The existing sounds of a pool description, in listed order. */
  function Existing(names: seq<string>, known: set<string>): (r: seq<string>)
    ensures |r| <= |names|
  {
    if names == [] then []
    else
      var prior := Existing(names[..|names| - 1], known);
      var n := names[|names| - 1];
      if n in known then prior + [n] else prior
  }

  /** A pool holds exactly the listed names that exist. */
  lemma {:induction false} ExistingExactly(names: seq<string>, known: set<string>, x: string)
    ensures x in Existing(names, known) <==> x in names && x in known
  {
    if names != [] {
      var init := names[..|names| - 1];
      ExistingExactly(init, known, x);
      assert x in names <==> x in init || x == names[|names| - 1];
    }
  }

  /** A listed name that exists is appended; one that does not is skipped. */
  lemma ExistingStep(names: seq<string>, n: string, known: set<string>)
    ensures n in known ==> Existing(names + [n], known) == Existing(names, known) + [n]
    ensures n !in known ==> Existing(names + [n], known) == Existing(names, known)
  {
    assert (names + [n])[..|names|] == names;
  }

  /** A pool description: its name and the sound names it lists. */
  datatype PoolSpec = PoolSpec(name: string, sounds: seq<string>)

  /** `SoundPool(pool, sound_list)`. */
  class SoundPool {
    var name: string
    var sounds: seq<string>
    /** The sound names that existed when the pool was made. */
    ghost var known: set<string>

    ghost predicate Valid()
      reads this
    {
      forall x :: x in sounds ==> x in known
    }

    /** Keep the listed sounds that exist, in listed order, skipping the
        others. */
    constructor (pool: PoolSpec, soundList: set<string>)
      ensures Valid() && known == soundList
      ensures name == pool.name && sounds == Existing(pool.sounds, soundList)
    {
      var kept: seq<string> := [];
      var i := 0;
      while i < |pool.sounds|
        invariant 0 <= i <= |pool.sounds|
        invariant kept == Existing(pool.sounds[..i], soundList)
      {
        assert pool.sounds[..i + 1] == pool.sounds[..i] + [pool.sounds[i]];
        ExistingStep(pool.sounds[..i], pool.sounds[i], soundList);
        if pool.sounds[i] in soundList {
          kept := kept + [pool.sounds[i]];
        }
        i := i + 1;
      }
      assert pool.sounds[..i] == pool.sounds;
      name := pool.name;
      sounds := kept;
      known := soundList;
      new;
      forall x | x in sounds
        ensures x in known
      {
        ExistingExactly(pool.sounds, soundList, x);
      }
    }

    /** `get()`: one of the pool's sounds, picked by the draw; an empty pool
        raises `IndexError` (`None`). */
    method Get(u: Draw) returns (r: Option<string>)
      requires Valid()
      ensures r.None? <==> sounds == []
      ensures r.Some? ==> r.value in sounds && r.value in known
      ensures r.Some? ==> r.value == sounds[PickIndex(u, |sounds|)]
    {
      if sounds == [] {
        return None;
      }
      r := Some(Choice(sounds, u));
    }
  }

  /** What `attach_automation` did: attached, logged an unknown sound or
      channel group, or raised `KeyError` for an unknown automation. */
  datatype AttachOutcome = Attached | NoTarget | NoAutomation

  /** What `detach_automation` did: detached, logged an unknown attachment,
      or raised `KeyError` because the recorded target is gone. */
  datatype DetachOutcome = Detached | NotAttached | TargetGone

  /** A sound whose entry is removed from the kill list's candidates: it is
      `None` or finished. */
  predicate Dead(s: Sound?)
    reads s
  {
    s == null || s.finished
  }

  /** The part of the server state the modelled operations touch. */
  class SoundServer {
    /** The `unique_name` counter and, as ghost state, every name it has
        handed out. */
    var ctr: nat
    ghost var issued: seq<string>
    /** The sounds by name; `null` for an entry holding `None`. */
    var sounds: map<string, Sound?>
    /** The automation group of every sound and channel group, by name. */
    var targets: map<string, AutomationGroup>
    /** The named automation templates. */
    var automations: map<string, Automation>
    /** Attachment name to the sound or channel group it is attached to. */
    var attachments: map<string, string>
    var bursts: map<string, Burst>

    /** The names handed out are those of counter values 1 to `ctr`. */
    ghost predicate NamesValid()
      reads this
    {
      issued == NamesUpTo(ctr)
    }

    /** Every recorded attachment names an existing target whose automation
        group holds an automation under the attachment's name. */
    ghost predicate AttachmentsValid()
      reads this, targets.Values
    {
      forall n :: n in attachments ==> attachments[n] in targets && n in targets[attachments[n]].automations
    }

    /** The server state as `__init__` leaves these fields, given the objects
        it built from the configuration. */
    constructor (sounds: map<string, Sound?>, targets: map<string, AutomationGroup>,
                 automations: map<string, Automation>, bursts: map<string, Burst>)
      ensures NamesValid() && AttachmentsValid()
      ensures ctr == 0 && attachments == map[]
      ensures this.sounds == sounds && this.targets == targets
      ensures this.automations == automations && this.bursts == bursts
    {
      ctr := 0;
      issued := [];
      this.sounds := sounds;
      this.targets := targets;
      this.automations := automations;
      attachments := map[];
      this.bursts := bursts;
    }

    /** `unique_name()`: bump the counter and name the sound after it; the
        name was never handed out before. */
    method UniqueName() returns (name: string)
      requires NamesValid()
      modifies this
      ensures NamesValid()
      ensures ctr == old(ctr) + 1 && name == NameFor(ctr)
      ensures issued == old(issued) + [name] && name !in old(issued)
      ensures sounds == old(sounds) && targets == old(targets) && automations == old(automations)
      ensures attachments == old(attachments) && bursts == old(bursts)
    {
      ctr := ctr + 1;
      name := NameFor(ctr);
      forall i | 0 <= i < |issued|
        ensures issued[i] != name
      {
        NameForInjective(i + 1, ctr);
      }
      issued := issued + [name];
    }

    /** `attach_automation(s, auto, name)`: for a known target, add a copy of
        the automation `auto` to its group under `name` and record the
        attachment; an unknown target is only logged, an unknown automation
        raises before anything changes. */
    method AttachAutomation(s: string, auto: string, name: string) returns (r: AttachOutcome)
      modifies this, targets.Values
      ensures r == (if s !in old(targets) then NoTarget else if auto !in old(automations) then NoAutomation else Attached)
      ensures targets == old(targets) && automations == old(automations) && sounds == old(sounds)
      ensures ctr == old(ctr) && issued == old(issued) && bursts == old(bursts)
      ensures attachments == if r == Attached then old(attachments)[name := s] else old(attachments)
      ensures forall g :: g in targets.Values ==> g.attrs == old(g.attrs)
      ensures forall g :: g in targets.Values ==>
                g.automations == if r == Attached && g == targets[s] then old(g.automations)[name := automations[auto]]
                                 else old(g.automations)
      ensures old(AttachmentsValid()) ==> AttachmentsValid()
    {
      if s !in targets {
        return NoTarget;
      }
      if auto !in automations {
        return NoAutomation;
      }
      targets[s].Add(name, automations[auto]);
      attachments := attachments[name := s];
      r := Attached;
    }

    /** `detach_automation(name)`: remove the automation from its target's
        group and forget the attachment; an unknown name is only logged. The
        target lookup raises if the target has gone, which the attachment
        invariant rules out. */
    method DetachAutomation(name: string) returns (r: DetachOutcome)
      modifies this, targets.Values
      ensures r == (if name !in old(attachments) then NotAttached
                    else if old(attachments)[name] !in old(targets) then TargetGone else Detached)
      ensures old(AttachmentsValid()) ==> r != TargetGone && AttachmentsValid()
      ensures targets == old(targets) && automations == old(automations) && sounds == old(sounds)
      ensures ctr == old(ctr) && issued == old(issued) && bursts == old(bursts)
      ensures attachments == if r == Detached then old(attachments) - {name} else old(attachments)
      ensures forall g :: g in targets.Values ==> g.attrs == old(g.attrs)
      ensures forall g :: g in targets.Values ==>
                g.automations == if r == Detached && g == targets[old(attachments)[name]] then old(g.automations) - {name}
                                 else old(g.automations)
    {
      if name !in attachments {
        return NotAttached;
      }
      var s := attachments[name];
      if s !in targets {
        return TargetGone;
      }
      targets[s].Remove(name);
      attachments := attachments - {name};
      r := Detached;
    }

    /** `set_burst_enable(burst, state)`: switch a known burst on or off; an
        unknown name changes nothing. */
    method SetBurstEnable(burst: string, state: bool)
      modifies bursts.Values
      ensures forall b :: b in bursts.Values ==>
                b.enabled == if burst in bursts && b == bursts[burst] then state else old(b.enabled)
      ensures forall b :: b in bursts.Values ==>
                b.name == old(b.name) && b.poolName == old(b.poolName) && b.switching == old(b.switching) &&
                b.rates == old(b.rates) && b.mins == old(b.mins) && b.maxs == old(b.maxs) &&
                b.box == old(b.box) && b.gilbert == old(b.gilbert)
    {
      if burst in bursts {
        bursts[burst].enabled := state;
      }
    }

    /** The first pass of the kill-list rule in `update`: the names holding
        `None` or a finished sound go on the kill list; every other sound is
        updated. */
    method CollectKillList() returns (kill: set<string>, live: set<string>)
      ensures kill == set k | k in sounds && Dead(sounds[k])
      ensures live == set k | k in sounds && !Dead(sounds[k])
    {
      kill, live := {}, {};
      var todo := sounds.Keys;
      while todo != {}
        invariant todo <= sounds.Keys
        invariant kill == set k | k in sounds && k !in todo && Dead(sounds[k])
        invariant live == set k | k in sounds && k !in todo && !Dead(sounds[k])
        decreases todo
      {
        var k :| k in todo;
        if Dead(sounds[k]) {
          kill := kill + {k};
        } else {
          live := live + {k};
        }
        todo := todo - {k};
      }
      assert kill - todo == kill;
    }

    /** The last pass of the kill-list rule: of the names on the kill list,
        delete those holding a transient sound; `None` entries and
        non-transient sounds stay. */
    method DeleteKilled(kill: set<string>)
      modifies this
      ensures sounds == map k | k in old(sounds) && !(k in kill && old(sounds)[k] != null && old(sounds)[k].transient)
                              :: old(sounds)[k]
      ensures ctr == old(ctr) && issued == old(issued) && targets == old(targets)
      ensures automations == old(automations) && attachments == old(attachments) && bursts == old(bursts)
    {
      ghost var doomed := set k | k in sounds && sounds[k] != null && sounds[k].transient;
      var todo := kill;
      while todo != {}
        invariant todo <= kill
        invariant sounds == old(sounds) - (kill - todo) * doomed
        invariant ctr == old(ctr) && issued == old(issued) && targets == old(targets)
        invariant automations == old(automations) && attachments == old(attachments) && bursts == old(bursts)
        decreases todo
      {
        var k :| k in todo;
        if k in sounds && sounds[k] != null && sounds[k].transient {
          sounds := sounds - {k};
        }
        todo := todo - {k};
      }
      assert kill - todo == kill;
    }

    /** The kill-list part of `update(dt)`: the names whose sound is updated
        this tick, and the sounds that remain. A sound is removed exactly when
        it is finished and transient; no live sound and no `None` entry is
        removed, and nothing that stays changes. */
    method ReapSounds() returns (updated: set<string>)
      modifies this
      ensures updated == set k | k in old(sounds) && !Dead(old(sounds)[k])
      ensures sounds.Keys <= old(sounds).Keys
      ensures forall k :: k in sounds ==> sounds[k] == old(sounds)[k]
      ensures forall k :: k in old(sounds) ==>
                (k !in sounds <==> old(sounds)[k] != null && old(sounds)[k].finished && old(sounds)[k].transient)
      ensures ctr == old(ctr) && issued == old(issued) && targets == old(targets)
      ensures automations == old(automations) && attachments == old(attachments) && bursts == old(bursts)
    {
      var kill;
      kill, updated := CollectKillList();
      DeleteKilled(kill);
    }
  }
}
