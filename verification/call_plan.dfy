/** The plan `deform_grid_c` builds before calling the resampling engine.

    Array contents stay abstract: an array is its shape and element type.  The
    plan records which coefficient arrays the engine receives (inputs
    spline-filtered or passed through), the per-axis filter passes applied to
    the displacement field, the crop offset, the allocated outputs, and the
    constant boundary arguments. */
module CallPlan {
  import opened Wrappers
  import opened Crop
  import opened Slicing

  /** A numpy element type, kept opaque. */
  datatype DType = DType(name: string)

  /** An array, abstracted to its shape and element type. */
  datatype ArrayDesc = ArrayDesc(shape: seq<nat>, dtype: DType)

  /** The wrapper's first argument: a single array or a Python list of them;
      the same shape is used for what it returns. */
  datatype Arrays = One(item: ArrayDesc) | Many(arrays: seq<ArrayDesc>)

  /** The arrays as the list the wrapper iterates over (`[X_in]` for one). */
  function Items(a: Arrays): seq<ArrayDesc> {
    match a
    case One(x) => [x]
    case Many(xs) => xs
  }

  /** What the engine reads for one input: the input itself, or its B-spline
      coefficients computed by `spline_filter` at the given order. */
  datatype Coefficients =
    | Unfiltered(source: ArrayDesc)
    | SplineFiltered(source: ArrayDesc, order: int)

  /** One `spline_filter1d` pass over the displacement field. */
  datatype FilterPass = FilterPass(axis: nat, order: int)

  /** The displacement field is always filtered at cubic order. */
  const DisplacementOrder: int := 3

  /** `NI_EXTEND_CONSTANT`: samples outside the input read the constant `cval`. */
  const ExtendConstantMode: nat := 4

  /** The constant read outside the input. */
  const BorderValue: real := 0.0

  /** Everything handed to `_deform_grid.deform_grid`, plus the value returned. */
  datatype Plan = Plan(
    coefficients: seq<Coefficients>,
    displacementPasses: seq<FilterPass>,
    offset: Option<seq<nat>>,
    outputs: Arrays,
    order: int,
    mode: nat,
    cval: real)

  datatype CallError =
    | EmptyBatch                    // `X_in[0]` on an empty list
    | InvalidCrop(cause: CropError)

  /** `X_sf`: the inputs are prefiltered at the main order only above order 1. */
  function Prefilter(xs: seq<ArrayDesc>, order: int): (r: seq<Coefficients>)
    ensures |r| == |xs|
    ensures forall k :: 0 <= k < |r| ==>
              && r[k].source == xs[k]
              && (r[k].SplineFiltered? <==> order > 1)
              && (r[k].SplineFiltered? ==> r[k].order == order)
  {
    if order > 1 then seq(|xs|, k requires 0 <= k < |xs| => SplineFiltered(xs[k], order))
    else seq(|xs|, k requires 0 <= k < |xs| => Unfiltered(xs[k]))
  }

  /** The loop `for d in range(1, rank)` over the displacement field's axes. */
  function DisplacementPasses(rank: nat): (r: seq<FilterPass>)
    ensures |r| == if rank == 0 then 0 else rank - 1
    ensures forall k :: 0 <= k < |r| ==> r[k] == FilterPass(k + 1, DisplacementOrder)
  {
    if rank <= 1 then [] else DisplacementPasses(rank - 1) + [FilterPass(rank - 1, DisplacementOrder)]
  }

  /** The zero-filled outputs: one per input, in order, each of the given
      shape and of its input's element type. */
  function Allocate(xs: seq<ArrayDesc>, shape: seq<nat>): (r: seq<ArrayDesc>)
    ensures |r| == |xs|
    ensures forall k :: 0 <= k < |r| ==> r[k] == ArrayDesc(shape, xs[k].dtype)
  {
    seq(|xs|, k requires 0 <= k < |xs| => ArrayDesc(shape, xs[k].dtype))
  }

  /** Prefiltering works array by array: filtering a concatenated list is
      filtering each part, so no input's coefficients depend on another input. */
  lemma PrefilterDistributes(xs: seq<ArrayDesc>, ys: seq<ArrayDesc>, order: int)
    ensures Prefilter(xs + ys, order) == Prefilter(xs, order) + Prefilter(ys, order)
  {
    var lhs := Prefilter(xs + ys, order);
    var rhs := Prefilter(xs, order) + Prefilter(ys, order);
    assert forall k :: 0 <= k < |lhs| ==> lhs[k] == rhs[k];
  }

  /** Allocation works array by array: the outputs for a concatenated list are
      the outputs for each part, in order. */
  lemma AllocateDistributes(xs: seq<ArrayDesc>, ys: seq<ArrayDesc>, shape: seq<nat>)
    ensures Allocate(xs + ys, shape) == Allocate(xs, shape) + Allocate(ys, shape)
  {
    var lhs := Allocate(xs + ys, shape);
    var rhs := Allocate(xs, shape) + Allocate(ys, shape);
    assert forall k :: 0 <= k < |lhs| ==> lhs[k] == rhs[k];
  }

  /** The plan once the crop is normalised; a single input is answered with a
      single output and a list with a list. */
  function BuildPlan(inputs: Arrays, displacementShape: seq<nat>, order: int, w: Window): Plan {
    var outs := Allocate(Items(inputs), w.shape);
    Plan(
      Prefilter(Items(inputs), order),
      DisplacementPasses(|displacementShape|),
      w.offset,
      if inputs.One? then One(outs[0]) else Many(outs),
      order,
      ExtendConstantMode,
      BorderValue)
  }

  /** The wrapper's preparation under a given stop rule.  As in the wrapper,
      the order defaults to cubic and the crop to none. */
  function PlanCallWith(rule: StopRule, inputs: Arrays, displacementShape: seq<nat>, order: int := 3,
                        crop: Option<seq<CropElem>> := None): (r: Result<Plan, CallError>)
    ensures |Items(inputs)| == 0 ==> r == Failure(EmptyBatch)
    ensures r.Success? <==>
              |Items(inputs)| > 0 && NormalizeCropWith(rule, Items(inputs)[0].shape, crop).Success?
    ensures r.Failure? && |Items(inputs)| > 0 ==>
              && r.error.InvalidCrop?
              && crop.Some?
              && FirstFault(rule, Items(inputs)[0].shape, crop.value, r.error.cause)
    ensures r.Success? ==>
              var w := NormalizeCropWith(rule, Items(inputs)[0].shape, crop).value;
              var p := r.value;
              && (p.outputs.One? <==> inputs.One?)
              && |Items(p.outputs)| == |Items(inputs)|
              && (forall k :: 0 <= k < |Items(inputs)| ==>
                    Items(p.outputs)[k] == ArrayDesc(w.shape, Items(inputs)[k].dtype))
              && p.offset == w.offset
              && |p.coefficients| == |Items(inputs)|
              && (forall k :: 0 <= k < |Items(inputs)| ==>
                    && p.coefficients[k].source == Items(inputs)[k]
                    && (p.coefficients[k].SplineFiltered? <==> order > 1)
                    && (p.coefficients[k].SplineFiltered? ==> p.coefficients[k].order == order))
              && p.order == order
              && p.mode == ExtendConstantMode
              && p.cval == BorderValue
    ensures r.Success? ==>
              var passes := r.value.displacementPasses;
              && |passes| == (if |displacementShape| == 0 then 0 else |displacementShape| - 1)
              && forall k :: 0 <= k < |passes| ==>
                   && 0 < passes[k].axis < |displacementShape|
                   && passes[k].axis == k + 1
                   && passes[k].order == DisplacementOrder
    ensures r.Success? && crop.None? ==>
              && r.value.offset.None?
              && forall k :: 0 <= k < |Items(inputs)| ==>
                   Items(r.value.outputs)[k].shape == Items(inputs)[0].shape
  {
    var xs := Items(inputs);
    if |xs| == 0 then Failure(EmptyBatch)
    else
      match NormalizeCropWith(rule, xs[0].shape, crop)
      case Failure(e) => Failure(InvalidCrop(e))
      case Success(w) => Success(BuildPlan(inputs, displacementShape, order, w))
  }

  /** `deform_grid_c` as written. */
  function PlanCall(inputs: Arrays, displacementShape: seq<nat>, order: int := 3,
                    crop: Option<seq<CropElem>> := None): (r: Result<Plan, CallError>)
    ensures r.Success? <==>
              |Items(inputs)| > 0 && NormalizeCrop(Items(inputs)[0].shape, crop).Success?
    ensures r.Success? ==>
              && r.value.offset == NormalizeCrop(Items(inputs)[0].shape, crop).value.offset
              && (r.value.outputs.One? <==> inputs.One?)
              && |Items(r.value.outputs)| == |Items(inputs)|
              && forall k :: 0 <= k < |Items(inputs)| ==>
                   Items(r.value.outputs)[k] ==
                     ArrayDesc(NormalizeCrop(Items(inputs)[0].shape, crop).value.shape, Items(inputs)[k].dtype)
    ensures r.Success? && crop.None? ==> r.value.offset.None?
    ensures r.Success? && crop.Some? ==>
              OffsetRecordsStarts(Items(inputs)[0].shape, crop.value, r.value.offset)
  {
    PlanCallWith(FalsyStop, inputs, displacementShape, order, crop)
  }

  /** `deform_grid_c` with the crop's stop defaulted only when missing. */
  function PlanCallIntended(inputs: Arrays, displacementShape: seq<nat>, order: int := 3,
                            crop: Option<seq<CropElem>> := None): (r: Result<Plan, CallError>)
    ensures r.Success? <==>
              |Items(inputs)| > 0 && NormalizeCropIntended(Items(inputs)[0].shape, crop).Success?
    ensures r.Success? ==>
              && r.value.offset == NormalizeCropIntended(Items(inputs)[0].shape, crop).value.offset
              && (r.value.outputs.One? <==> inputs.One?)
              && |Items(r.value.outputs)| == |Items(inputs)|
              && forall k :: 0 <= k < |Items(inputs)| ==>
                   Items(r.value.outputs)[k] ==
                     ArrayDesc(NormalizeCropIntended(Items(inputs)[0].shape, crop).value.shape, Items(inputs)[k].dtype)
    ensures r.Success? && crop.None? ==> r.value.offset.None?
    ensures r.Success? && crop.Some? ==>
              OffsetRecordsStarts(Items(inputs)[0].shape, crop.value, r.value.offset)
  {
    PlanCallWith(NoneStop, inputs, displacementShape, order, crop)
  }

  /** A call that omits the order and the crop resamples at cubic order over
      the full input: every input is spline-filtered at order 3, no offset is
      passed, and every output has the first input's shape. */
  lemma DefaultCallIsCubicUncropped(inputs: Arrays, displacementShape: seq<nat>)
    ensures var r := PlanCall(inputs, displacementShape);
            && (r.Success? <==> |Items(inputs)| > 0)
            && (r.Success? ==>
                  && r.value.order == 3
                  && r.value.offset.None?
                  && (forall k :: 0 <= k < |Items(inputs)| ==>
                        && r.value.coefficients[k] == SplineFiltered(Items(inputs)[k], 3)
                        && Items(r.value.outputs)[k] == ArrayDesc(Items(inputs)[0].shape, Items(inputs)[k].dtype)))
  {
  }

  /** Batching does not change the per-array plan: for arrays sharing one
      shape, the plan for the list agrees, array by array, with the plan for
      each array on its own. */
  lemma BatchMatchesSingles(rule: StopRule, xs: seq<ArrayDesc>, displacementShape: seq<nat>, order: int,
                            crop: Option<seq<CropElem>>, k: nat)
    requires k < |xs|
    requires forall j :: 0 <= j < |xs| ==> xs[j].shape == xs[0].shape
    ensures var batch := PlanCallWith(rule, Many(xs), displacementShape, order, crop);
            var single := PlanCallWith(rule, One(xs[k]), displacementShape, order, crop);
            && (batch.Success? <==> single.Success?)
            && (batch.Failure? ==> batch == single)
            && (batch.Success? ==>
                  && Items(batch.value.outputs)[k] == single.value.outputs.item
                  && batch.value.coefficients[k] == single.value.coefficients[0]
                  && batch.value.offset == single.value.offset
                  && batch.value.displacementPasses == single.value.displacementPasses)
  {
    assert Items(One(xs[k]))[0].shape == Items(Many(xs))[0].shape;
  }

  /** A single array is planned exactly like a one-element list, except that
      the output is returned bare. */
  lemma SingleIsBatchOfOne(rule: StopRule, x: ArrayDesc, displacementShape: seq<nat>, order: int,
                           crop: Option<seq<CropElem>>)
    ensures var single := PlanCallWith(rule, One(x), displacementShape, order, crop);
            var batch := PlanCallWith(rule, Many([x]), displacementShape, order, crop);
            && (single.Success? <==> batch.Success?)
            && (single.Success? ==>
                  && single.value.outputs == One(batch.value.outputs.arrays[0])
                  && single.value.(outputs := batch.value.outputs) == batch.value)
  {
  }

  /** The displacement field's filtering does not depend on the main order:
      two calls differing only in order filter it identically. */
  lemma DisplacementFilterIgnoresOrder(rule: StopRule, inputs: Arrays, displacementShape: seq<nat>,
                                       order1: int, order2: int, crop: Option<seq<CropElem>>)
    ensures var p1 := PlanCallWith(rule, inputs, displacementShape, order1, crop);
            var p2 := PlanCallWith(rule, inputs, displacementShape, order2, crop);
            && (p1.Success? <==> p2.Success?)
            && (p1.Success? ==>
                  && p1.value.displacementPasses == p2.value.displacementPasses
                  && p1.value.outputs == p2.value.outputs
                  && p1.value.offset == p2.value.offset)
  {
  }

  /** End-to-end crop consistency of the corrected wrapper: every output has
      the shape of the reference's cropped grid, and the offset handed to the
      engine makes its identity coordinates those of the reference. */
  lemma {:induction false} IntendedPlanMatchesReference(inputs: Arrays, displacementShape: seq<nat>, order: int,
                                                        crop: seq<CropElem>)
    requires |Items(inputs)| > 0 && |crop| == |Items(inputs)[0].shape|
    requires PlanCallIntended(inputs, displacementShape, order, Some(crop)).Success?
    ensures PlainSlices(crop)
    ensures var shape := Items(inputs)[0].shape;
            var p := PlanCallIntended(inputs, displacementShape, order, Some(crop)).value;
            && (forall k :: 0 <= k < |Items(p.outputs)| ==> Items(p.outputs)[k].shape == ReferenceShape(shape, crop))
            && (p.offset.Some? ==> |p.offset.value| == |shape|)
            && forall d, idx :: 0 <= d < |shape| && InGrid(ReferenceShape(shape, crop), idx) ==>
                 ReferenceCoordinate(shape, crop, d, idx) == OffsetCoordinate(p.offset, d, idx)
  {
    var shape := Items(inputs)[0].shape;
    CropMatchesSlicing(NoneStop, shape, crop);
  }
}
