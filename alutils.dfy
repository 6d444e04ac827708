/** OpenAL attribute lists: flattening a dictionary of `enum: value` pairs
    into the zero-terminated 32-bit integer array the C API takes, and
    decoding such an array back into a dictionary keyed by enum name. */
module AlUtils {
  import opened Wrappers
  import opened Numerics
  import opened OpenAlExt

  /** The entries of `attr_list(d)` for a dictionary whose items, in
      insertion order, are `d`: key and value of each item in turn, each
      stored into a 32-bit slot, then the terminator 0. */
  function AttrListSpec(d: seq<(int, int)>): (a: seq<int>)
    ensures |a| == 2 * |d| + 1 && a[2 * |d|] == 0
  {
    seq(2 * |d| + 1, i requires 0 <= i <= 2 * |d| =>
      if i == 2 * |d| then 0 else if i % 2 == 0 then ToInt32(d[i / 2].0) else ToInt32(d[i / 2].1))
  }

  /** Item `i` of the dictionary sits at entries `2i` and `2i+1`. */
  lemma ItemAt(d: seq<(int, int)>, i: nat)
    requires i < |d|
    ensures AttrListSpec(d)[2 * i] == ToInt32(d[i].0) && AttrListSpec(d)[2 * i + 1] == ToInt32(d[i].1)
  {
    assert (2 * i) / 2 == i && (2 * i + 1) / 2 == i && (2 * i + 1) % 2 == 1;
  }

  /** The flattened list `[k0, v0, k1, v1, ...]` of the comprehension. */
  function Flatten(d: seq<(int, int)>): (l: seq<int>)
    ensures |l| == 2 * |d|
    ensures forall i :: 0 <= i < |d| ==> l[2 * i] == d[i].0 && l[2 * i + 1] == d[i].1
  {
    if d == [] then []
    else
      var l := Flatten(d[..|d| - 1]) + [d[|d| - 1].0, d[|d| - 1].1];
      assert forall i :: 0 <= i < |d| - 1 ==> d[i] == d[..|d| - 1][i];
      l
  }

  /** `attr_list(d)`: a fresh array of `len(l) + 1` slots, filled from the
      flattened list and terminated by 0. */
  method AttrList(d: seq<(int, int)>) returns (a: array<int>)
    ensures fresh(a) && a[..] == AttrListSpec(d)
  {
    var l := Flatten(d);
    a := new int[|l| + 1];
    var i := 0;
    while i < |l|
      invariant 0 <= i <= |l| && a.Length == |l| + 1
      invariant forall j :: 0 <= j < i ==> a[j] == AttrListSpec(d)[j]
    {
      a[i] := ToInt32(l[i]);
      ItemAt(d, i / 2);
      assert i % 2 == 0 ==> 2 * (i / 2) == i;
      assert i % 2 == 1 ==> 2 * (i / 2) + 1 == i;
      i := i + 1;
    }
    a[|l|] := 0;
    assert a[..] == AttrListSpec(d);
  }

  /** The decoding of the first `n` pairs of `attrs`: each pair's first
      entry is looked up in the enum table (`KeyError`, reported with the
      value, when it is missing) and names the second. A later pair with the
      same name overwrites an earlier one. */
  function Decode(attrs: seq<int>, enums: map<EnumKey, string>, n: nat): (r: Result<map<string, int>, int>)
    requires 2 * n <= |attrs|
  {
    if n == 0 then Success(map[])
    else
      var prior := Decode(attrs, enums, n - 1);
      var key := NumKey(attrs[2 * (n - 1)] as real);
      if prior.Failure? then prior
      else if key !in enums then Failure(attrs[2 * (n - 1)])
      else Success(prior.value[enums[key] := attrs[2 * (n - 1) + 1]])
  }

  /** The pair-decoding loop of `get_device_attributes`, over the array the
      device returned: `size // 2` pairs, so an odd trailing entry is not
      read. */
  method DeviceAttributes(attrs: array<int>, enums: map<EnumKey, string>) returns (r: Result<map<string, int>, int>)
    ensures r == Decode(attrs[..], enums, attrs.Length / 2)
  {
    var attributes: map<string, int> := map[];
    var a := 0;
    while a < attrs.Length / 2
      invariant 0 <= a <= attrs.Length / 2
      invariant Decode(attrs[..], enums, a) == Success(attributes)
    {
      var key := NumKey(attrs[a * 2] as real);
      if key !in enums {
        r := Failure(attrs[a * 2]);
        DecodeFailureSticks(attrs[..], enums, a + 1, attrs.Length / 2);
        return;
      }
      attributes := attributes[enums[key] := attrs[a * 2 + 1]];
      a := a + 1;
    }
    r := Success(attributes);
  }

  lemma {:induction false} DecodeFailureSticks(attrs: seq<int>, enums: map<EnumKey, string>, m: nat, n: nat)
    requires m <= n && 2 * n <= |attrs| && Decode(attrs, enums, m).Failure?
    ensures Decode(attrs, enums, n) == Decode(attrs, enums, m)
    decreases n - m
  {
    if m < n {
      DecodeFailureSticks(attrs, enums, m + 1, n);
    }
  }

  /** The enum name of item `i`'s key. */
  function NameOf(d: seq<(int, int)>, enums: map<EnumKey, string>, i: nat): string
    requires i < |d| && NumKey(d[i].0 as real) in enums
  {
    enums[NumKey(d[i].0 as real)]
  }

  /** Decoding an attribute list undoes `attr_list`: when every key is a
      32-bit enum value with a name, and different items have different
      names, the decoded dictionary maps exactly those names, each to its
      item's value as stored in 32 bits. The terminator is not read. */
  lemma AttrListRoundTrip(d: seq<(int, int)>, enums: map<EnumKey, string>)
    requires forall i :: 0 <= i < |d| ==> -0x8000_0000 <= d[i].0 < 0x8000_0000 && NumKey(d[i].0 as real) in enums
    requires forall i, j :: 0 <= i < j < |d| ==> NameOf(d, enums, i) != NameOf(d, enums, j)
    ensures Decode(AttrListSpec(d), enums, |AttrListSpec(d)| / 2).Success?
    ensures Decode(AttrListSpec(d), enums, |AttrListSpec(d)| / 2).value.Keys ==
              set i | 0 <= i < |d| :: NameOf(d, enums, i)
    ensures forall i :: 0 <= i < |d| ==>
              Decode(AttrListSpec(d), enums, |AttrListSpec(d)| / 2).value[NameOf(d, enums, i)] == ToInt32(d[i].1)
  {
    var s := AttrListSpec(d);
    assert |s| / 2 == |d|;
    forall i | 0 <= i < |d|
      ensures s[2 * i] == d[i].0 && s[2 * i + 1] == ToInt32(d[i].1)
    {
      ItemAt(d, i);
    }
    DecodePrefix(s, d, enums, |d|);
  }

  lemma {:induction false} DecodePrefix(s: seq<int>, d: seq<(int, int)>, enums: map<EnumKey, string>, n: nat)
    requires n <= |d| && 2 * |d| <= |s|
    requires forall i :: 0 <= i < |d| ==> s[2 * i] == d[i].0 && s[2 * i + 1] == ToInt32(d[i].1)
    requires forall i :: 0 <= i < |d| ==> NumKey(d[i].0 as real) in enums
    requires forall i, j :: 0 <= i < j < |d| ==> NameOf(d, enums, i) != NameOf(d, enums, j)
    ensures Decode(s, enums, n).Success?
    ensures Decode(s, enums, n).value.Keys == set i | 0 <= i < n :: NameOf(d, enums, i)
    ensures forall i :: 0 <= i < n ==> Decode(s, enums, n).value[NameOf(d, enums, i)] == ToInt32(d[i].1)
  {
    if n > 0 {
      DecodePrefix(s, d, enums, n - 1);
      var prior := Decode(s, enums, n - 1).value;
      var name := NameOf(d, enums, n - 1);
      DecodeStep(s, enums, n, prior, name, ToInt32(d[n - 1].1));
      NamesGrow(d, enums, n);
      ValuesStep(d, enums, n, prior);
    }
  }

  /** Putting item `n-1` keeps the values of the items before it, whose
      names differ from its name. */
  lemma ValuesStep(d: seq<(int, int)>, enums: map<EnumKey, string>, n: nat, prior: map<string, int>)
    requires 0 < n <= |d| && forall i :: 0 <= i < |d| ==> NumKey(d[i].0 as real) in enums
    requires forall i, j :: 0 <= i < j < |d| ==> NameOf(d, enums, i) != NameOf(d, enums, j)
    requires forall i :: 0 <= i < n - 1 ==> NameOf(d, enums, i) in prior && prior[NameOf(d, enums, i)] == ToInt32(d[i].1)
    ensures forall i :: 0 <= i < n ==>
              prior[NameOf(d, enums, n - 1) := ToInt32(d[n - 1].1)][NameOf(d, enums, i)] == ToInt32(d[i].1)
  {
    var r := prior[NameOf(d, enums, n - 1) := ToInt32(d[n - 1].1)];
    forall i | 0 <= i < n
      ensures r[NameOf(d, enums, i)] == ToInt32(d[i].1)
    {
      if i < n - 1 {
        assert NameOf(d, enums, i) != NameOf(d, enums, n - 1);
      }
    }
  }

  /** One more pair whose key has a name. */
  lemma DecodeStep(s: seq<int>, enums: map<EnumKey, string>, n: nat, prior: map<string, int>, name: string, v: int)
    requires 0 < n && 2 * n <= |s| && Decode(s, enums, n - 1) == Success(prior)
    requires NumKey(s[2 * (n - 1)] as real) in enums && enums[NumKey(s[2 * (n - 1)] as real)] == name
    requires s[2 * (n - 1) + 1] == v
    ensures Decode(s, enums, n) == Success(prior[name := v])
  {}

  lemma NamesGrow(d: seq<(int, int)>, enums: map<EnumKey, string>, n: nat)
    requires 0 < n <= |d| && forall i :: 0 <= i < |d| ==> NumKey(d[i].0 as real) in enums
    ensures (set i | 0 <= i < n :: NameOf(d, enums, i)) ==
            (set i | 0 <= i < n - 1 :: NameOf(d, enums, i)) + {NameOf(d, enums, n - 1)}
  {}

  /** A pair whose key has no name makes decoding fail. */
  lemma UnnamedKeyFails(attrs: seq<int>, enums: map<EnumKey, string>, k: nat)
    requires 2 * k + 1 < |attrs| && NumKey(attrs[2 * k] as real) !in enums
    ensures Decode(attrs, enums, |attrs| / 2).Failure?
  {
    DecodeFailsFrom(attrs, enums, k, |attrs| / 2);
  }

  lemma {:induction false} DecodeFailsFrom(attrs: seq<int>, enums: map<EnumKey, string>, k: nat, n: nat)
    requires k < n && 2 * n <= |attrs| && NumKey(attrs[2 * k] as real) !in enums
    ensures Decode(attrs, enums, n).Failure?
    decreases n
  {
    if k < n - 1 {
      DecodeFailsFrom(attrs, enums, k, n - 1);
    }
  }
}
