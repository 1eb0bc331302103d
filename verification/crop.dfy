/** Normalisation of the crop descriptor passed to `deform_grid_c`.

    A crop is a sequence with one entry per spatial axis; each entry must be a
    Python `slice` without a step.  Normalisation resolves the defaults of
    `start` and `stop`, rejects malformed or out-of-bounds ranges, and yields
    the output shape together with an optional integer offset. */
module Crop {
  import opened Wrappers

  /** One entry of a crop descriptor: a `slice(start, stop, step)` with its
      three optional fields, or any other Python object. */
  datatype CropElem =
    | Slice(start: Option<int>, stop: Option<int>, step: Option<int>)
    | NonSlice

  /** How a stop is defaulted.  `FalsyStop` is the wrapper's `stop or shape[d]`,
      which also replaces an explicit stop of 0; `NoneStop` defaults only a
      missing stop, as Python slicing does. */
  datatype StopRule = FalsyStop | NoneStop

  /** Why a crop is refused; each case names the axis being examined.
      `MissingEntry` is the IndexError of `crop[d]` on a too-short crop,
      `NotASlice` the explicit "Crop must be a slice." exception, and the
      other three are the wrapper's assertions on one slice. */
  datatype CropError =
    | MissingEntry(axis: nat)
    | NotASlice(axis: nat)
    | StepGiven(axis: nat)
    | NegativeStart(axis: nat)
    | BadRange(axis: nat)

  /** The accepted range on one axis: its first index and its length. */
  datatype AxisRange = AxisRange(start: nat, extent: nat)

  /** The normalised crop: the output shape and the offset handed to the
      resampling engine (`None` when no axis starts after 0). */
  datatype Window = Window(shape: seq<nat>, offset: Option<seq<nat>>)

  /** `start or 0`: a missing start and a start of 0 both resolve to 0. */
  function Start(e: CropElem): int {
    match e
    case Slice(start, _, _) => if start.None? then 0 else start.value
    case NonSlice => 0
  }

  /** The resolved stop of an entry on an axis of extent `n`. */
  function Stop(rule: StopRule, n: nat, e: CropElem): int {
    match e
    case NonSlice => n
    case Slice(_, stop, _) =>
      match rule
      case FalsyStop => if stop.None? || stop.value == 0 then n else stop.value
      case NoneStop => if stop.None? then n else stop.value
  }

  /** An entry the wrapper accepts on an axis of extent `n`: a step-less slice
      whose resolved range is non-empty and lies inside `[0, n)`. */
  predicate AxisAccepted(rule: StopRule, n: nat, e: CropElem) {
    && e.Slice?
    && e.step.None?
    && 0 <= Start(e) < Stop(rule, n, e) <= n
  }

  /** A crop the wrapper accepts for an array of the given shape.  Entries past
      the array's rank are never looked at. */
  predicate CropAccepted(rule: StopRule, shape: seq<nat>, crop: seq<CropElem>) {
    && |shape| <= |crop|
    && forall d :: 0 <= d < |shape| ==> AxisAccepted(rule, shape[d], crop[d])
  }

  /** The checks made on one entry, in the order the wrapper makes them. */
  function CheckAxis(rule: StopRule, axis: nat, n: nat, e: CropElem): (r: Result<AxisRange, CropError>)
    ensures r.Success? <==> AxisAccepted(rule, n, e)
    ensures r.Success? ==>
              && r.value.start == Start(e)
              && r.value.start + r.value.extent == Stop(rule, n, e)
              && 1 <= r.value.extent <= n
    ensures r.Failure? ==> r.error.axis == axis
    ensures e.NonSlice? ==> r == Failure(NotASlice(axis))
    ensures e.Slice? && e.step.Some? ==> r == Failure(StepGiven(axis))
    ensures e.Slice? && e.step.None? && Start(e) < 0 ==> r == Failure(NegativeStart(axis))
    ensures e.Slice? && e.step.None? && 0 <= Start(e) && !(Start(e) < Stop(rule, n, e) <= n) ==>
              r == Failure(BadRange(axis))
  {
    if e.NonSlice? then Failure(NotASlice(axis))
    else if e.step.Some? then Failure(StepGiven(axis))
    else
      var start := Start(e);
      var stop := Stop(rule, n, e);
      if start < 0 then Failure(NegativeStart(axis))
      else if !(start < stop && stop <= n) then Failure(BadRange(axis))
      else Success(AxisRange(start, stop - start))
  }

  /** `e` is the error the wrapper raises: it concerns the first axis that is
      not accepted, and it is what that axis's checks report. */
  predicate FirstFault(rule: StopRule, shape: seq<nat>, crop: seq<CropElem>, e: CropError) {
    && e.axis < |shape|
    && (forall k :: 0 <= k < e.axis ==> k < |crop| && AxisAccepted(rule, shape[k], crop[k]))
    && if e.axis < |crop|
       then CheckAxis(rule, e.axis, shape[e.axis], crop[e.axis]) == Failure(e)
       else e == MissingEntry(e.axis)
  }

  /** The offset records the crop's resolved starts: it is `None` exactly when
      every checked axis starts at 0, and otherwise holds every axis's start. */
  predicate OffsetRecordsStarts(shape: seq<nat>, crop: seq<CropElem>, offset: Option<seq<nat>>) {
    && (offset.None? <==> forall d :: 0 <= d < |shape| && d < |crop| ==> Start(crop[d]) == 0)
    && (offset.Some? ==>
          && |offset.value| == |shape|
          && forall d :: 0 <= d < |shape| ==> d < |crop| && offset.value[d] == Start(crop[d]))
  }

  /** The loop over axes `0 .. d-1`, stopping at the first failure. */
  function CheckAxes(rule: StopRule, shape: seq<nat>, crop: seq<CropElem>, d: nat): (r: Result<seq<AxisRange>, CropError>)
    requires d <= |shape|
    ensures r.Success? <==> forall k :: 0 <= k < d ==> k < |crop| && AxisAccepted(rule, shape[k], crop[k])
    ensures r.Success? ==>
              && |r.value| == d
              && forall k :: 0 <= k < d ==>
                   && k < |crop|
                   && r.value[k].start == Start(crop[k])
                   && r.value[k].start + r.value[k].extent == Stop(rule, shape[k], crop[k])
                   && 1 <= r.value[k].extent <= shape[k]
    ensures r.Failure? ==> r.error.axis < d && FirstFault(rule, shape, crop, r.error)
    decreases d
  {
    if d == 0 then Success([])
    else
      var prefix :- CheckAxes(rule, shape, crop, d - 1);
      if d - 1 >= |crop| then Failure(MissingEntry(d - 1))
      else
        var last :- CheckAxis(rule, d - 1, shape[d - 1], crop[d - 1]);
        Success(prefix + [last])
  }

  /** Normalisation under a given stop rule: no crop keeps the input shape and
      no offset; otherwise every axis is checked in turn. */
  function NormalizeCropWith(rule: StopRule, shape: seq<nat>, crop: Option<seq<CropElem>>): (r: Result<Window, CropError>)
    ensures crop.None? ==> r == Success(Window(shape, None))
    ensures crop.Some? ==> (r.Success? <==> CropAccepted(rule, shape, crop.value))
    ensures crop.Some? && r.Failure? ==> FirstFault(rule, shape, crop.value, r.error)
    ensures r.Success? ==>
              && |r.value.shape| == |shape|
              && forall d :: 0 <= d < |shape| ==> r.value.shape[d] <= shape[d]
    ensures crop.Some? && r.Success? ==>
              forall d :: 0 <= d < |shape| ==>
                && d < |crop.value|
                && 1 <= r.value.shape[d]
                && r.value.shape[d] == Stop(rule, shape[d], crop.value[d]) - Start(crop.value[d])
    ensures crop.Some? && r.Success? ==>
              (r.value.offset.None? <==>
                 forall d :: 0 <= d < |shape| && d < |crop.value| ==> Start(crop.value[d]) == 0)
    ensures r.Success? && r.value.offset.Some? ==>
              && crop.Some?
              && |r.value.offset.value| == |shape|
              && forall d :: 0 <= d < |shape| ==>
                   d < |crop.value| && r.value.offset.value[d] == Start(crop.value[d])
  {
    if crop.None? then Success(Window(shape, None))
    else
      var ranges :- CheckAxes(rule, shape, crop.value, |shape|);
      var starts := seq(|ranges|, k requires 0 <= k < |ranges| => ranges[k].start);
      var extents := seq(|ranges|, k requires 0 <= k < |ranges| => ranges[k].extent);
      assert forall k :: 0 <= k < |starts| ==> starts[k] == Start(crop.value[k]);
      var anyPositive := exists k :: 0 <= k < |starts| && starts[k] > 0;
      Success(Window(extents, if anyPositive then Some(starts) else None))
  }

  /** The wrapper's normalisation as written, with `stop or shape[d]`. */
  function NormalizeCrop(shape: seq<nat>, crop: Option<seq<CropElem>>): (r: Result<Window, CropError>)
    ensures crop.None? ==> r == Success(Window(shape, None))
    ensures crop.Some? ==> (r.Success? <==> CropAccepted(FalsyStop, shape, crop.value))
    ensures crop.Some? && r.Success? ==>
              && |r.value.shape| == |shape|
              && forall d :: 0 <= d < |shape| ==>
                && d < |crop.value|
                && 1 <= r.value.shape[d] <= shape[d]
                && r.value.shape[d] == Stop(FalsyStop, shape[d], crop.value[d]) - Start(crop.value[d])
    ensures crop.Some? && r.Success? ==> OffsetRecordsStarts(shape, crop.value, r.value.offset)
  {
    NormalizeCropWith(FalsyStop, shape, crop)
  }

  /** The normalisation with the stop defaulted only when it is missing, so that
      an explicit stop of 0 is refused instead of widened to the whole axis. */
  function NormalizeCropIntended(shape: seq<nat>, crop: Option<seq<CropElem>>): (r: Result<Window, CropError>)
    ensures crop.None? ==> r == Success(Window(shape, None))
    ensures crop.Some? ==> (r.Success? <==> CropAccepted(NoneStop, shape, crop.value))
    ensures crop.Some? && r.Success? ==>
              && |r.value.shape| == |shape|
              && forall d :: 0 <= d < |shape| ==>
                && d < |crop.value|
                && crop.value[d].stop != Some(0)
                && 1 <= r.value.shape[d] <= shape[d]
                && r.value.shape[d] == Stop(NoneStop, shape[d], crop.value[d]) - Start(crop.value[d])
    ensures crop.Some? && r.Success? ==> OffsetRecordsStarts(shape, crop.value, r.value.offset)
  {
    NormalizeCropWith(NoneStop, shape, crop)
  }

  /** The two stop rules differ only on an explicit stop of 0. */
  lemma {:induction false} CheckAxesRulesAgree(shape: seq<nat>, crop: seq<CropElem>, d: nat)
    requires d <= |shape|
    requires forall k :: 0 <= k < |crop| && crop[k].Slice? ==> crop[k].stop != Some(0)
    ensures CheckAxes(FalsyStop, shape, crop, d) == CheckAxes(NoneStop, shape, crop, d)
    decreases d
  {
    if d > 0 {
      CheckAxesRulesAgree(shape, crop, d - 1);
      if d - 1 < |crop| {
        assert Stop(FalsyStop, shape[d - 1], crop[d - 1]) == Stop(NoneStop, shape[d - 1], crop[d - 1]);
      }
    }
  }

  /** On every crop without an explicit stop of 0, the wrapper as written and
      the intended normalisation give the same result. */
  lemma StopRulesAgreeWithoutZeroStops(shape: seq<nat>, crop: seq<CropElem>)
    requires forall k :: 0 <= k < |crop| && crop[k].Slice? ==> crop[k].stop != Some(0)
    ensures NormalizeCrop(shape, Some(crop)) == NormalizeCropIntended(shape, Some(crop))
  {
    CheckAxesRulesAgree(shape, crop, |shape|);
  }
}
