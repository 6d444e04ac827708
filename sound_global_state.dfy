/** Process-wide state of the sound layer: the channel-number counter and the
    three-axis velocity estimator built from Savitzky–Golay filters. */
module SoundGlobalState {
  import opened Wrappers
  import opened Numerics
  import opened DerivativeEstimator

  /** The module-level `channel_ptr`, which hands out channel numbers in
      order. `issued` records the numbers handed out so far. */
  class ChannelCounter {
    var channelPtr: int
    ghost var issued: seq<int>

    /** The numbers handed out are exactly 1, 2, ..., in order, and the next
        one is the one after the last. */
    ghost predicate Valid()
      reads this
    {
      channelPtr == |issued| + 1 &&
      forall k :: 0 <= k < |issued| ==> issued[k] == k + 1
    }

    constructor ()
      ensures Valid() && channelPtr == 1 && issued == []
    {
      channelPtr := 1;
      issued := [];
    }

    /** `new_channel()`: the current number, then advance. The number
        returned was never returned before. */
    method NewChannel() returns (c: int)
      requires Valid()
      modifies this
      ensures Valid()
      ensures c == old(channelPtr) && channelPtr == old(channelPtr) + 1
      ensures issued == old(issued) + [c] && c !in old(issued)
    {
      c := channelPtr;
      channelPtr := channelPtr + 1;
      issued := issued + [c];
    }
  }

  /** `VelocityFilter.default_taps`. */
  const DefaultTaps: int := 13

  /** `taps or VelocityFilter.default_taps`: both `None` and 0 are falsy. */
  function TapsOrDefault(taps: Option<int>): (t: int)
    ensures t != 0
    ensures taps.Some? && taps.value != 0 ==> t == taps.value
    ensures taps == None || taps == Some(0) ==> t == DefaultTaps
  {
    if taps.None? || taps.value == 0 then DefaultTaps else taps.value
  }

  /** Estimates a velocity from a stream of 3-D positions, one first-derivative
      Savitzky–Golay filter per axis. The velocity is stored in an integer
      array, so each estimate is truncated toward zero. */
  class VelocityFilter {
    var velocity: array<int>
    var order: int
    var taps: int
    var filters: seq<SavitzkyGolay>

    /** The filters' buffers; `null` for a filter that has no sample. */
    ghost function Buffers(): set<object?>
      reads this, filters
    {
      set i | 0 <= i < |filters| :: filters[i].buffer
    }

    ghost predicate Valid()
      reads this, filters, Buffers()
    {
      velocity.Length == 3 && |filters| == 3 &&
      (forall i :: 0 <= i < 3 ==> filters[i].Valid()) &&
      (forall i, j :: 0 <= i < j < 3 ==> filters[i] != filters[j]) &&
      (forall i, j :: 0 <= i < j < 3 && filters[i].buffer != null ==> filters[i].buffer != filters[j].buffer)
    }

    /** `VelocityFilter(taps, order)`: three first-derivative filters of
        `taps or 13` samples, and a zero velocity. Raises (so is excluded
        here) when the filter coefficients cannot be computed. */
    constructor (taps: Option<int>, order: int, pinv: Matrix -> Matrix)
      requires PinvShaped(pinv) && SgFilter(TapsOrDefault(taps), 1, order, pinv).Success?
      ensures Valid() && fresh(velocity) && velocity[..] == [0, 0, 0]
      ensures this.order == order && this.taps == TapsOrDefault(taps)
      ensures forall i :: 0 <= i < 3 ==>
                fresh(filters[i]) && filters[i].Window() == None && filters[i].deriv == 1 &&
                filters[i].size == NormaliseSize(TapsOrDefault(taps)) &&
                filters[i].diff == SgFilter(TapsOrDefault(taps), 1, order, pinv).value
    {
      var v := new int[3](_ => 0);
      assert v[..] == [0, 0, 0];
      velocity := v;
      this.order := order;
      this.taps := TapsOrDefault(taps);
      var fs := AxisFilters(TapsOrDefault(taps), order, pinv);
      filters := fs;
      new;
      NoSamplesValid();
    }

    /** Three distinct valid filters without a sample make a valid
        velocity filter. */
    lemma NoSamplesValid()
      requires velocity.Length == 3 && |filters| == 3
      requires filters[0] != filters[1] && filters[0] != filters[2] && filters[1] != filters[2]
      requires forall i :: 0 <= i < 3 ==> filters[i].Valid() && filters[i].buffer == null
      ensures Valid()
    {}

    /** The three per-axis filters, each fresh and without a sample. */
    static method AxisFilters(t: int, order: int, pinv: Matrix -> Matrix) returns (fs: seq<SavitzkyGolay>)
      requires PinvShaped(pinv) && SgFilter(t, 1, order, pinv).Success?
      ensures |fs| == 3 && fs[0] != fs[1] && fs[0] != fs[2] && fs[1] != fs[2]
      ensures forall i :: 0 <= i < 3 ==>
                fresh(fs[i]) && fs[i].Valid() && fs[i].buffer == null && fs[i].Window() == None &&
                fs[i].deriv == 1 && fs[i].size == NormaliseSize(t) && fs[i].diff == SgFilter(t, 1, order, pinv).value
    {
      var fx := new SavitzkyGolay(t, 1, order, pinv);
      var fy := new SavitzkyGolay(t, 1, order, pinv);
      var fz := new SavitzkyGolay(t, 1, order, pinv);
      fs := [fx, fy, fz];
    }

    /** `new_sample(pos)`: feed axis `i` of the position to filter `i` and
        store its estimate, truncated, as `velocity[i]`. */
    method NewSample(pos: seq<real>)
      requires Valid() && |pos| >= 3
      modifies velocity, filters, Buffers()
      ensures Valid() && filters == old(filters) && velocity == old(velocity)
      ensures forall i :: 0 <= i < 3 ==>
                filters[i].size == old(filters[i].size) && filters[i].diff == old(filters[i].diff) &&
                filters[i].deriv == old(filters[i].deriv) &&
                filters[i].Window() == Some(Pushed(old(filters[i].Window()), pos[i], filters[i].size))
      ensures forall i :: 0 <= i < 3 ==>
                filters[i].buffer != null &&
                velocity[i] == TruncToInt(Dot(filters[i].buffer[..], filters[i].diff))
    {
      var i := 0;
      while i < 3
        invariant 0 <= i <= 3
        invariant filters == old(filters) && velocity == old(velocity) && velocity.Length == 3
        invariant Valid()
        invariant forall j :: 0 <= j < 3 ==>
                    filters[j].size == old(filters[j].size) && filters[j].diff == old(filters[j].diff) &&
                    filters[j].deriv == old(filters[j].deriv)
        invariant forall j :: i <= j < 3 ==>
                    filters[j].buffer == old(filters[j].buffer) &&
                    filters[j].Window() == old(filters[j].Window())
        invariant forall j :: 0 <= j < i ==>
                    filters[j].Window() == Some(Pushed(old(filters[j].Window()), pos[j], filters[j].size))
        invariant forall j :: 0 <= j < i ==>
                    filters[j].buffer != null &&
                    velocity[j] == TruncToInt(Dot(filters[j].buffer[..], filters[j].diff))
      {
        FeedAxis(i, pos[i]);
        i := i + 1;
      }
    }

    /** One iteration of `new_sample`: axis `i` only. */
    method FeedAxis(i: nat, x: real)
      requires Valid() && i < 3
      modifies velocity, filters[i], filters[i].buffer
      ensures Valid()
      ensures filters[i].size == old(filters[i].size) && filters[i].diff == old(filters[i].diff) &&
              filters[i].deriv == old(filters[i].deriv)
      ensures filters[i].Window() == Some(Pushed(old(filters[i].Window()), x, filters[i].size))
      ensures filters[i].buffer != null
      ensures velocity[i] == TruncToInt(Dot(filters[i].buffer[..], filters[i].diff))
      ensures forall j :: 0 <= j < 3 && j != i ==>
                velocity[j] == old(velocity[j]) &&
                filters[j].buffer == old(filters[j].buffer) &&
                filters[j].Window() == old(filters[j].Window()) &&
                filters[j].size == old(filters[j].size) && filters[j].diff == old(filters[j].diff) &&
                filters[j].deriv == old(filters[j].deriv)
    {
      var v := filters[i].NewSample(x);
      velocity[i] := TruncToInt(v);
    }

    /** `clear()`: a fresh zero velocity and empty filter windows. */
    method Clear()
      requires Valid()
      modifies this, filters
      ensures Valid() && fresh(velocity) && velocity[..] == [0, 0, 0]
      ensures filters == old(filters) && order == old(order) && taps == old(taps)
      ensures forall i :: 0 <= i < 3 ==>
                filters[i].Window() == None &&
                filters[i].size == old(filters[i].size) && filters[i].diff == old(filters[i].diff) &&
                filters[i].deriv == old(filters[i].deriv)
    {
      velocity := new int[3](_ => 0);
      assert velocity[..] == [0, 0, 0];
      var i := 0;
      while i < 3
        invariant 0 <= i <= 3
        invariant fresh(velocity) && velocity[..] == [0, 0, 0]
        invariant filters == old(filters) && order == old(order) && taps == old(taps)
        invariant Valid()
        invariant forall j :: 0 <= j < 3 ==>
                    filters[j].size == old(filters[j].size) && filters[j].diff == old(filters[j].diff) &&
                    filters[j].deriv == old(filters[j].deriv)
        invariant forall j :: 0 <= j < i ==> filters[j].Window() == None
      {
        ClearAxis(i);
        i := i + 1;
      }
    }

    /** One iteration of `clear`: axis `i` only. */
    method ClearAxis(i: nat)
      requires Valid() && i < 3
      modifies filters[i]
      ensures Valid()
      ensures filters[i].Window() == None
      ensures filters[i].size == old(filters[i].size) && filters[i].diff == old(filters[i].diff) &&
              filters[i].deriv == old(filters[i].deriv)
      ensures forall j :: 0 <= j < 3 && j != i ==>
                filters[j].Window() == old(filters[j].Window()) &&
                filters[j].size == old(filters[j].size) && filters[j].diff == old(filters[j].diff) &&
                filters[j].deriv == old(filters[j].deriv)
    {
      filters[i].Clear();
    }
  }
}
