/** The reference implementation's view of a crop, and its agreement with the
    wrapper's offset.

    The reference builds the identity coordinate grid with
    `np.meshgrid(np.arange(shape[0]), ..., indexing='ij')` and crops it by
    indexing with the crop's slices.  The `d`-th grid array holds, at every
    full-frame index, that index's `d`-th component; after slicing, the value at
    output index `idx` is therefore the `idx[d]`-th element of
    `range(shape[d])[crop[d]]`.  The wrapper instead keeps the output index and
    hands the engine an offset to add.  Both must name the same source sample. */
module Slicing {
  import opened Wrappers
  import opened Crop

  /** Python's normalisation of a slice bound for a sequence of length `n`:
      negative bounds count from the end, and the result is clamped to `[0, n]`. */
  function ClampBound(n: nat, i: int): (r: nat)
    ensures r <= n
    ensures 0 <= i <= n ==> r == i
    ensures -(n as int) <= i < 0 ==> r == i + n
    ensures i < -(n as int) ==> r == 0
    ensures n < i ==> r == n
  {
    if i < 0 then (if i + n < 0 then 0 else i + n)
    else if i > n then n
    else i
  }

  /** `range(n)[start:stop]` (step 1), which is also `np.arange(n)[start:stop]`. */
  function SliceIndices(n: nat, start: Option<int>, stop: Option<int>): (r: seq<int>)
    ensures |r| <= n
    ensures forall k :: 0 <= k < |r| ==> 0 <= r[k] < n
  {
    var lo := if start.None? then 0 else ClampBound(n, start.value);
    var hi := if stop.None? then n else ClampBound(n, stop.value);
    if lo < hi then seq(hi - lo, k requires 0 <= k < hi - lo => lo + k) else []
  }

  /** Every entry is a step-less slice, so numpy's basic slicing applies. */
  predicate PlainSlices(crop: seq<CropElem>) {
    forall d :: 0 <= d < |crop| ==> crop[d].Slice? && crop[d].step.None?
  }

  /** The shape of the reference's cropped grid, `coordinates[d][crop].shape`. */
  function ReferenceShape(shape: seq<nat>, crop: seq<CropElem>): (r: seq<nat>)
    requires |crop| == |shape| && PlainSlices(crop)
    ensures |r| == |shape|
    ensures forall d :: 0 <= d < |r| ==> r[d] <= shape[d]
  {
    seq(|shape|, d requires 0 <= d < |shape| => |SliceIndices(shape[d], crop[d].start, crop[d].stop)|)
  }

  /** `idx` is an index of an array of the given shape. */
  predicate InGrid(shape: seq<nat>, idx: seq<int>) {
    |idx| == |shape| && forall a :: 0 <= a < |idx| ==> 0 <= idx[a] < shape[a]
  }

  /** The value of the reference's cropped `d`-th coordinate array at `idx`. */
  function ReferenceCoordinate(shape: seq<nat>, crop: seq<CropElem>, d: nat, idx: seq<int>): (r: int)
    requires |crop| == |shape| && PlainSlices(crop)
    requires d < |shape| && InGrid(ReferenceShape(shape, crop), idx)
    ensures 0 <= r < shape[d]
  {
    SliceIndices(shape[d], crop[d].start, crop[d].stop)[idx[d]]
  }

  /** The identity coordinate the engine uses along axis `d` at output index
      `idx`: the index itself, shifted by the offset when one is given. */
  function OffsetCoordinate(offset: Option<seq<nat>>, d: nat, idx: seq<int>): int
    requires d < |idx|
    requires offset.Some? ==> d < |offset.value|
  {
    idx[d] + (if offset.Some? then offset.value[d] else 0)
  }

  /** On an accepted entry whose stop is not a defaulted 0, Python's slice of
      the axis is the run of `extent` indices beginning at the resolved start. */
  lemma AxisSliceIsShiftedRange(rule: StopRule, n: nat, e: CropElem)
    requires AxisAccepted(rule, n, e)
    requires rule == FalsyStop ==> e.stop != Some(0)
    ensures var s := SliceIndices(n, e.start, e.stop);
            && |s| == Stop(rule, n, e) - Start(e)
            && forall i :: 0 <= i < |s| ==> s[i] == i + Start(e)
  {
    var lo := if e.start.None? then 0 else ClampBound(n, e.start.value);
    var hi := if e.stop.None? then n else ClampBound(n, e.stop.value);
    assert lo == Start(e);
    assert hi == Stop(rule, n, e);
  }

  /** Crop consistency: on an accepted crop with one entry per axis (and, for
      the wrapper as written, no explicit stop of 0), the reference's cropped
      grid has the wrapper's output shape, and at every output index its
      coordinate is the output index plus the wrapper's offset. */
  lemma {:induction false} CropMatchesSlicing(rule: StopRule, shape: seq<nat>, crop: seq<CropElem>)
    requires |crop| == |shape|
    requires NormalizeCropWith(rule, shape, Some(crop)).Success?
    requires rule == FalsyStop ==> forall d :: 0 <= d < |crop| && crop[d].Slice? ==> crop[d].stop != Some(0)
    ensures PlainSlices(crop)
    ensures var w := NormalizeCropWith(rule, shape, Some(crop)).value;
            && ReferenceShape(shape, crop) == w.shape
            && (w.offset.Some? ==> |w.offset.value| == |shape|)
            && forall d, idx :: 0 <= d < |shape| && InGrid(w.shape, idx) ==>
                 ReferenceCoordinate(shape, crop, d, idx) == OffsetCoordinate(w.offset, d, idx)
  {
    var w := NormalizeCropWith(rule, shape, Some(crop)).value;
    assert CropAccepted(rule, shape, crop);
    forall d | 0 <= d < |crop|
      ensures crop[d].Slice? && crop[d].step.None?
    {
      assert AxisAccepted(rule, shape[d], crop[d]);
    }
    forall d | 0 <= d < |shape|
      ensures ReferenceShape(shape, crop)[d] == w.shape[d]
    {
      AxisSliceIsShiftedRange(rule, shape[d], crop[d]);
    }
    forall d, idx | 0 <= d < |shape| && InGrid(w.shape, idx)
      ensures ReferenceCoordinate(shape, crop, d, idx) == OffsetCoordinate(w.offset, d, idx)
    {
      AxisSliceIsShiftedRange(rule, shape[d], crop[d]);
      if w.offset.None? {
        assert Start(crop[d]) == 0;
      }
    }
  }

  /** The wrapper as written accepts `slice(2, 0)` on an axis of extent 4 as
      the range `[2, 4)` with offset 2, while Python slicing of that axis by
      the same slice is empty: the two implementations disagree. */
  lemma ZeroStopCounterexample()
    ensures var crop := [Slice(Some(2), Some(0), None)];
            && NormalizeCrop([4], Some(crop)) == Success(Window([2], Some([2])))
            && ReferenceShape([4], crop) == [0]
  {
    var crop := [Slice(Some(2), Some(0), None)];
    assert CropAccepted(FalsyStop, [4], crop) by {
      assert AxisAccepted(FalsyStop, 4, crop[0]);
    }
    var w := NormalizeCrop([4], Some(crop)).value;
    assert w.shape == [2];
    assert w.offset.value == [2];
    assert SliceIndices(4, Some(2), Some(0)) == [];
  }

  /** The intended normalisation refuses every crop with an explicit stop of 0
      on a checked axis, where Python slicing would produce an empty range. */
  lemma IntendedRefusesZeroStop(shape: seq<nat>, crop: seq<CropElem>, d: nat)
    requires d < |shape| && d < |crop|
    requires crop[d].Slice? && crop[d].stop == Some(0)
    ensures NormalizeCropIntended(shape, Some(crop)).Failure?
    ensures SliceIndices(shape[d], crop[d].start, crop[d].stop) == []
  {
    assert !AxisAccepted(NoneStop, shape[d], crop[d]);
  }
}
