/** Construction of the FFJORD baseline network `ODENet` (nets.py): the
    choice of the layer class from `layer_type`, the keyword arguments each
    stride selects, the channel plan `hidden_dims + (input_shape[0],)` and the
    running `hidden_shape`, with every exception the constructor can raise.

    The layers themselves come from a library that is not part of this model;
    a layer is represented by its class and its constructor arguments. */
module OdeNetPlan {
  import opened Common

  /** The eight keys of the `layer_type` tables. */
  datatype LayerFamily = Ignore | Hyper | Squash | Concat | ConcatV2 | ConcatSquash | Blend | ConcatCoord

  /** A layer class of the library: its linear or its 2-d convolutional variant. */
  datatype LayerClass = Linear(family: LayerFamily) | Conv2d(family: LayerFamily)

  datatype Nonlinearity = Tanh | Relu | Softplus | Elu

  /** The keyword arguments a stride selects; `None` means no keyword at all. */
  datatype ConvArgs = ConvArgs(ksize: nat, stride: nat, padding: nat, transpose: bool)

  datatype PlanError =
    | StrideCountMismatch            // the `assert len(strides) == len(hidden_dims) + 1`
    | UnknownLayerType(name: string) // KeyError of the layer table
    | EmptyInputShape                // IndexError of `input_shape[0]`
    | UnsupportedStride(stride: int) // ValueError
    | UnknownNonlinearity(name: string) // KeyError of NONLINEARITIES
    | ShapeTooShort                  // IndexError of `hidden_shape[1]`/`[2]`

  datatype LayerPlan = LayerPlan(cls: LayerClass, dimIn: int, dimOut: int, kwargs: Option<ConvArgs>)

  /** `self.layers`, `self.activation_fns` and the last `hidden_shape`. */
  datatype Plan = Plan(layers: seq<LayerPlan>, activations: seq<Nonlinearity>, finalShape: seq<int>)

  const LayerTypeNames: set<string> :=
    {"ignore", "hyper", "squash", "concat", "concat_v2", "concatsquash", "blend", "concatcoord"}

  const NonlinearityNames: set<string> := {"tanh", "relu", "softplus", "elu"}

  function FamilyOfName(name: string): (r: Option<LayerFamily>)
    ensures r.Some? <==> name in LayerTypeNames
  {
    if name == "ignore" then Some(Ignore)
    else if name == "hyper" then Some(Hyper)
    else if name == "squash" then Some(Squash)
    else if name == "concat" then Some(Concat)
    else if name == "concat_v2" then Some(ConcatV2)
    else if name == "concatsquash" then Some(ConcatSquash)
    else if name == "blend" then Some(Blend)
    else if name == "concatcoord" then Some(ConcatCoord)
    else None
  }

  /** The lookup `{...}[layer_type]` in the convolutional or the linear table.
      The linear table maps "concatcoord" to the plain concat layer. */
  function BaseLayer(conv: bool, name: string): (r: Option<LayerClass>)
    ensures r.Some? <==> name in LayerTypeNames
    ensures r.Some? ==> r.value.Conv2d? == conv
  {
    match FamilyOfName(name)
    case None => None
    case Some(f) =>
      if conv then Some(Conv2d(f))
      else Some(Linear(if f == ConcatCoord then Concat else f))
  }

  /** Distinct layer types give distinct classes, except that in the linear
      table "concatcoord" and "concat" both give the concat layer. */
  lemma BaseLayerDistinguishesNames(conv: bool, n1: string, n2: string)
    requires n1 in LayerTypeNames && n2 in LayerTypeNames && n1 != n2
    ensures BaseLayer(conv, n1) == BaseLayer(conv, n2) <==>
              !conv && {n1, n2} == {"concat", "concatcoord"}
  {
    if !conv && BaseLayer(conv, n1) == BaseLayer(conv, n2) {
      assert n1 in {"concat", "concatcoord"} && n2 in {"concat", "concatcoord"};
    }
  }

  function NonlinearityOf(name: string): (r: Option<Nonlinearity>)
    ensures r.Some? <==> name in NonlinearityNames
  {
    if name == "tanh" then Some(Tanh)
    else if name == "relu" then Some(Relu)
    else if name == "softplus" then Some(Softplus)
    else if name == "elu" then Some(Elu)
    else None
  }

  predicate StrideOk(s: Option<int>)
  {
    s.None? || s.value == 1 || s.value == 2 || s.value == -2
  }

  /** Strides that change the spatial resolution and so touch `hidden_shape[1:3]`. */
  predicate Resizes(s: Option<int>)
  {
    s == Some(2) || s == Some(-2)
  }

  /** The keyword arguments of the stride's branch, or the ValueError. */
  function Kwargs(s: Option<int>): (r: Result<Option<ConvArgs>, PlanError>)
    ensures r.Ok? <==> StrideOk(s)
    ensures r.Err? ==> r.error == UnsupportedStride(s.value)
  {
    match s
    case None => Ok(None)
    case Some(v) =>
      if v == 1 then Ok(Some(ConvArgs(3, 1, 1, false)))
      else if v == 2 then Ok(Some(ConvArgs(4, 2, 1, false)))
      else if v == -2 then Ok(Some(ConvArgs(4, 2, 1, true)))
      else Err(UnsupportedStride(v))
  }

  /** A stride's keywords are present exactly for an integer stride; the
      kernel steps by `|stride|`, is transposed exactly for a negative
      stride, and the stride-1 kernel is the only one of size 3. */
  lemma KwargsFollowStride(s: Option<int>)
    requires StrideOk(s)
    ensures Kwargs(s).value.Some? <==> s.Some?
    ensures s.Some? ==> Kwargs(s).value.value.stride == (if s.value < 0 then -s.value else s.value)
    ensures s.Some? ==> (Kwargs(s).value.value.transpose <==> s.value < 0)
    ensures s.Some? ==> (Kwargs(s).value.value.ksize == 3 <==> s.value == 1)
  {
  }

  /** One update of `hidden_shape`: channel count to `dimOut`, spatial sizes
      floor-halved for stride 2 and doubled for stride -2. */
  function ShapeStep(shape: seq<int>, dimOut: int, s: Option<int>): (r: seq<int>)
    requires |shape| >= 1 && (Resizes(s) ==> |shape| >= 3)
    ensures |r| == |shape| && r[0] == dimOut
    ensures forall i :: 3 <= i < |shape| ==> r[i] == shape[i]
  {
    var h := shape[0 := dimOut];
    if s == Some(2) then h[1 := h[1] / 2][2 := h[2] / 2]
    else if s == Some(-2) then h[1 := h[1] * 2][2 := h[2] * 2]
    else h
  }

  /** Doubling undoes halving on even sizes, and halving always undoes doubling. */
  lemma DownThenUpRestoresEvenSizes(shape: seq<int>, d1: int, d2: int)
    requires |shape| >= 3 && shape[1] % 2 == 0 && shape[2] % 2 == 0
    ensures ShapeStep(ShapeStep(shape, d1, Some(2)), d2, Some(-2)) == shape[0 := d2]
  {
  }

  lemma UpThenDownRestoresSizes(shape: seq<int>, d1: int, d2: int)
    requires |shape| >= 3
    ensures ShapeStep(ShapeStep(shape, d1, Some(-2)), d2, Some(2)) == shape[0 := d2]
  {
  }

  /** The strides the loop zips with: the given ones in conv mode, all `None` otherwise. */
  function EffectiveStrides(conv: bool, strides: seq<Option<int>>, hiddenDims: seq<int>): (r: seq<Option<int>>)
    ensures !conv ==> |r| == |hiddenDims| + 1 && forall k :: 0 <= k < |r| ==> r[k].None?
  {
    if conv then strides else seq(|hiddenDims| + 1, _ => None)
  }

  /** The error iteration `k` raises, in the order the loop body meets them. */
  function StepError(sts: seq<Option<int>>, k: nat, nonlinearity: string, shapeLen: nat): Option<PlanError>
    requires k < |sts|
  {
    if !StrideOk(sts[k]) then Some(UnsupportedStride(sts[k].value))
    else if nonlinearity !in NonlinearityNames then Some(UnknownNonlinearity(nonlinearity))
    else if Resizes(sts[k]) && shapeLen < 3 then Some(ShapeTooShort)
    else None
  }

  /** `hidden_shape` after the first `k` iterations. */
  function ShapeFold(inputShape: seq<int>, outs: seq<int>, sts: seq<Option<int>>, k: nat): (r: seq<int>)
    requires |inputShape| >= 1 && k <= |outs| <= |sts|
    requires forall j :: 0 <= j < k ==> (Resizes(sts[j]) ==> |inputShape| >= 3)
    ensures |r| == |inputShape|
  {
    if k == 0 then inputShape
    else ShapeStep(ShapeFold(inputShape, outs, sts, k - 1), outs[k - 1], sts[k - 1])
  }

  /** Without resampling strides only the channel count moves: after `k >= 1`
      iterations `hidden_shape` is the input shape with channel `outs[k-1]`. */
  lemma {:induction false} ShapeFoldWithoutResizing(inputShape: seq<int>, outs: seq<int>, sts: seq<Option<int>>, k: nat)
    requires |inputShape| >= 1 && 1 <= k <= |outs| <= |sts|
    requires forall j :: 0 <= j < k ==> !Resizes(sts[j])
    ensures ShapeFold(inputShape, outs, sts, k) == inputShape[0 := outs[k - 1]]
  {
    if k > 1 {
      ShapeFoldWithoutResizing(inputShape, outs, sts, k - 1);
    }
  }

  /** Every condition under which the constructor completes. */
  predicate Admissible(hiddenDims: seq<int>, inputShape: seq<int>, strides: seq<Option<int>>, conv: bool,
                       layerType: string, nonlinearity: string)
  {
    var sts := EffectiveStrides(conv, strides, hiddenDims);
    && |sts| == |hiddenDims| + 1
    && layerType in LayerTypeNames
    && |inputShape| >= 1
    && nonlinearity in NonlinearityNames
    && forall k :: 0 <= k < |sts| ==> StrideOk(sts[k]) && (Resizes(sts[k]) ==> |inputShape| >= 3)
  }

  /** Layer `k` of a completed plan: class from the table, input channels
      `input_shape[0] + conditional_dims` for the first layer and the previous
      output after, output channels from `hidden_dims + (input_shape[0],)`,
      keywords from the stride. */
  predicate PlannedLayer(p: LayerPlan, k: nat, cls: LayerClass, inputShape: seq<int>, outs: seq<int>,
                         sts: seq<Option<int>>, conditionalDims: int)
    requires |inputShape| >= 1 && k < |outs| && k < |sts|
  {
    && p.cls == cls
    && p.dimIn == (if k == 0 then inputShape[0] + conditionalDims else outs[k - 1])
    && p.dimOut == outs[k]
    && Kwargs(sts[k]) == Ok(p.kwargs)
  }

  /** One iteration of the construction loop: the layer for `outs[k]`, its
      activation and the next `hidden_shape`, or the error the iteration
      raises. */
  method PlanStep(sts: seq<Option<int>>, k: nat, outs: seq<int>, shape: seq<int>, inputShape: seq<int>,
                  cls: LayerClass, nonlinearity: string, conditionalDims: int)
    returns (r: Result<(LayerPlan, Nonlinearity, seq<int>), PlanError>)
    requires k < |outs| <= |sts| && |inputShape| >= 1 && |shape| == |inputShape|
    requires shape[0] == (if k == 0 then inputShape[0] else outs[k - 1])
    ensures r.Err? <==> StepError(sts, k, nonlinearity, |inputShape|).Some?
    ensures r.Err? ==> StepError(sts, k, nonlinearity, |inputShape|) == Some(r.error)
    ensures r.Ok? ==> StrideOk(sts[k]) && (Resizes(sts[k]) ==> |inputShape| >= 3)
    ensures r.Ok? ==> PlannedLayer(r.value.0, k, cls, inputShape, outs, sts, conditionalDims)
    ensures r.Ok? ==> Some(r.value.1) == NonlinearityOf(nonlinearity)
    ensures r.Ok? ==> r.value.2 == ShapeStep(shape, outs[k], sts[k])
  {
    var stride := sts[k];
    var kw := Kwargs(stride);
    if kw.Err? {
      return Err(kw.error);
    }
    var dimIn := if k == 0 then shape[0] + conditionalDims else shape[0];
    var layer := LayerPlan(cls, dimIn, outs[k], kw.value);
    var nl := NonlinearityOf(nonlinearity);
    if nl.None? {
      return Err(UnknownNonlinearity(nonlinearity));
    }
    if Resizes(stride) && |shape| < 3 {
      return Err(ShapeTooShort);
    }
    r := Ok((layer, nl.value, ShapeStep(shape, outs[k], stride)));
  }

  /** `ODENet.__init__`. */
  method NewODENet(hiddenDims: seq<int>, inputShape: seq<int>, strides: seq<Option<int>>, conv: bool,
                   layerType: string, nonlinearity: string, conditionalDims: int)
    returns (r: Result<Plan, PlanError>)
    ensures r.Ok? <==> Admissible(hiddenDims, inputShape, strides, conv, layerType, nonlinearity)
    ensures conv && |strides| != |hiddenDims| + 1 ==> r == Err(StrideCountMismatch)
    ensures !(conv && |strides| != |hiddenDims| + 1) && layerType !in LayerTypeNames ==>
              r == Err(UnknownLayerType(layerType))
    ensures !(conv && |strides| != |hiddenDims| + 1) && layerType in LayerTypeNames && |inputShape| == 0 ==>
              r == Err(EmptyInputShape)
    ensures r.Err? && !(conv && |strides| != |hiddenDims| + 1) && layerType in LayerTypeNames && |inputShape| > 0 ==>
              var sts := EffectiveStrides(conv, strides, hiddenDims);
              exists k :: 0 <= k < |sts| && StepError(sts, k, nonlinearity, |inputShape|) == Some(r.error) &&
                          forall j :: 0 <= j < k ==> StepError(sts, j, nonlinearity, |inputShape|).None?
    ensures r.Ok? ==>
              var sts := EffectiveStrides(conv, strides, hiddenDims);
              var outs := hiddenDims + [inputShape[0]];
              && |r.value.layers| == |hiddenDims| + 1
              && (forall k :: 0 <= k < |outs| ==>
                    PlannedLayer(r.value.layers[k], k, BaseLayer(conv, layerType).value, inputShape, outs, sts, conditionalDims))
              && r.value.layers[|hiddenDims|].dimOut == inputShape[0]
              && r.value.activations == seq(|hiddenDims|, _ => NonlinearityOf(nonlinearity).value)
              && r.value.finalShape == ShapeFold(inputShape, outs, sts, |outs|)
  {
    var sts := EffectiveStrides(conv, strides, hiddenDims);
    if conv && |strides| != |hiddenDims| + 1 {
      return Err(StrideCountMismatch);
    }
    var cls := BaseLayer(conv, layerType);
    if cls.None? {
      return Err(UnknownLayerType(layerType));
    }
    if |inputShape| == 0 {
      return Err(EmptyInputShape);
    }
    var outs := hiddenDims + [inputShape[0]];
    var layers: seq<LayerPlan> := [];
    var acts: seq<Nonlinearity> := [];
    var shape := inputShape;
    var k := 0;
    while k < |outs|
      invariant 0 <= k <= |outs| && |layers| == k && |acts| == k
      invariant forall j :: 0 <= j < k ==> StepError(sts, j, nonlinearity, |inputShape|).None?
      invariant forall j :: 0 <= j < k ==> StrideOk(sts[j]) && (Resizes(sts[j]) ==> |inputShape| >= 3)
      invariant shape == ShapeFold(inputShape, outs, sts, k)
      invariant shape[0] == (if k == 0 then inputShape[0] else outs[k - 1])
      invariant forall j :: 0 <= j < k ==> PlannedLayer(layers[j], j, cls.value, inputShape, outs, sts, conditionalDims)
      invariant forall j :: 0 <= j < k ==> Some(acts[j]) == NonlinearityOf(nonlinearity)
    {
      var step := PlanStep(sts, k, outs, shape, inputShape, cls.value, nonlinearity, conditionalDims);
      if step.Err? {
        return Err(step.error);
      }
      layers := layers + [step.value.0];
      acts := acts + [step.value.1];
      shape := step.value.2;
      k := k + 1;
    }
    assert StepError(sts, 0, nonlinearity, |inputShape|).None?;
    r := Ok(Plan(layers, acts[..|acts| - 1], shape));
  }

  /** A linear plan never resamples: its last `hidden_shape` is the input shape. */
  lemma LinearPlanKeepsShape(hiddenDims: seq<int>, inputShape: seq<int>, strides: seq<Option<int>>)
    requires |inputShape| >= 1
    ensures var sts := EffectiveStrides(false, strides, hiddenDims);
            ShapeFold(inputShape, hiddenDims + [inputShape[0]], sts, |hiddenDims| + 1) == inputShape
  {
    var sts := EffectiveStrides(false, strides, hiddenDims);
    var outs := hiddenDims + [inputShape[0]];
    ShapeFoldWithoutResizing(inputShape, outs, sts, |outs|);
    assert inputShape[0 := outs[|outs| - 1]] == inputShape;
  }

  /** The `ffjord_baseline` network: three hidden layers of 64, linear
      concat-squash layers and tanh, on a `(dim_latent,)` input. */
  lemma FfjordBaselineIsAdmissible(dimLatent: int)
    ensures Admissible([64, 64, 64], [dimLatent], [], false, "concatsquash", "tanh")
  {
  }
}
