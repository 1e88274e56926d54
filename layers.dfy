/** The affine layers of the dynamics network (nets.py): the dense and the
    masked time-modulated layers `ConcatSquashLinear` and
    `ConcatSquashLinearSparse`, and the masked plain layer `LinearSparse`.

    A batch is processed row by row, exactly as `torch.addmm` does: output row
    `r` is computed from input row `r` alone. The logistic function of the gate
    is a parameter (`sigmoid`); no floating-point behaviour is modelled. */
module Layers {
  import opened Common
  import opened Adjacency
  import opened Masks

  /** `nn.Linear(dimIn, dimOut)`: a `dimOut x dimIn` weight and a bias of length `dimOut`. */
  datatype Affine = Affine(weight: Matrix, bias: Vector)

  predicate AffineShape(f: Affine, dimIn: nat, dimOut: nat)
  {
    IsMatrix(f.weight, dimOut, dimIn) && |f.bias| == dimOut
  }

  /** The two maps of the scalar time: `_hyper_gate = nn.Linear(1, dimOut)` and
      `_hyper_bias = nn.Linear(1, dimOut, bias=False)`. */
  datatype TimeGate = TimeGate(gateWeight: Vector, gateBias: Vector, hyperWeight: Vector)

  predicate GateShape(g: TimeGate, dimOut: nat)
  {
    |g.gateWeight| == dimOut && |g.gateBias| == dimOut && |g.hyperWeight| == dimOut
  }

  function Dot(u: Vector, v: Vector): real
    requires |u| == |v|
  {
    if u == [] then 0.0 else Dot(u[..|u| - 1], v[..|v| - 1]) + u[|u| - 1] * v[|v| - 1]
  }

  /** `bias + W x` for one input row. */
  function Apply(f: Affine, x: Vector): (y: Vector)
    requires AffineShape(f, |x|, |f.bias|)
    ensures |y| == |f.bias|
  {
    seq(|f.bias|, a requires 0 <= a < |f.bias| => f.bias[a] + Dot(f.weight[a], x))
  }

  /** `torch.mul(mask, weight)`: where the mask is 0 the effective weight is 0,
      whatever the trained weight is; where it is 1 the weight passes. */
  function EffectiveWeight(mask: Matrix, w: Matrix): (r: Matrix)
    requires |mask| == |w| && forall a :: 0 <= a < |w| ==> |mask[a]| == |w[a]|
    ensures |r| == |w| && forall a :: 0 <= a < |w| ==> |r[a]| == |w[a]|
    ensures forall a, b :: 0 <= a < |w| && 0 <= b < |w[a]| && mask[a][b] == 0.0 ==> r[a][b] == 0.0
    ensures forall a, b :: 0 <= a < |w| && 0 <= b < |w[a]| && mask[a][b] == 1.0 ==> r[a][b] == w[a][b]
  {
    seq(|w|, a requires 0 <= a < |w| => seq(|w[a]|, b requires 0 <= b < |w[a]| => mask[a][b] * w[a][b]))
  }

  /** `torch.addmm(bias, x, (mask * W)^T)` for one input row: the forward of
      `LinearSparse` and the affine part of `ConcatSquashLinearSparse`. */
  function MaskedApply(mask: Matrix, f: Affine, x: Vector): (y: Vector)
    requires AffineShape(f, |x|, |f.bias|) && IsMatrix(mask, |f.bias|, |x|)
    ensures |y| == |f.bias|
  {
    Apply(Affine(EffectiveWeight(mask, f.weight), f.bias), x)
  }

  /** `res * sigmoid(gate(t)) + hyper_bias(t)`: the gate and the bias depend on
      the time and the output index only. */
  function Modulate(g: TimeGate, sigmoid: real -> real, t: real, res: Vector): (y: Vector)
    requires GateShape(g, |res|)
    ensures |y| == |res|
  {
    seq(|res|, a requires 0 <= a < |res| =>
      res[a] * sigmoid(g.gateWeight[a] * t + g.gateBias[a]) + g.hyperWeight[a] * t)
  }

  /** A time-modulated layer: dense (`ConcatSquashLinear`) when `mask` is None,
      masked (`ConcatSquashLinearSparse`) otherwise. */
  datatype SquashLayer = SquashLayer(dimIn: nat, dimOut: nat, mask: Option<Matrix>, lin: Affine, gate: TimeGate)

  predicate LayerShape(l: SquashLayer)
  {
    && AffineShape(l.lin, l.dimIn, l.dimOut)
    && GateShape(l.gate, l.dimOut)
    && (l.mask.Some? ==> IsMatrix(l.mask.value, l.dimOut, l.dimIn))
  }

  /** The layer's output for one input row. */
  function LayerRow(l: SquashLayer, sigmoid: real -> real, t: real, x: Vector): (y: Vector)
    requires LayerShape(l) && |x| == l.dimIn
    ensures |y| == l.dimOut
  {
    var res := if l.mask.Some? then MaskedApply(l.mask.value, l.lin, x) else Apply(l.lin, x);
    Modulate(l.gate, sigmoid, t, res)
  }

  /** The layer's `forward(t, x)` on a batch. */
  function LayerBatch(l: SquashLayer, sigmoid: real -> real, t: real, x: Batch): (y: Batch)
    requires LayerShape(l) && RowsOfWidth(x, l.dimIn)
    ensures |y| == |x| && RowsOfWidth(y, l.dimOut)
  {
    seq(|x|, r requires 0 <= r < |x| => LayerRow(l, sigmoid, t, x[r]))
  }

  /** `LinearSparse`: a masked affine map without time modulation. */
  datatype LinearSparse = LinearSparse(dimIn: nat, dimOut: nat, mask: Matrix, lin: Affine)

  predicate LinearSparseShape(l: LinearSparse)
  {
    AffineShape(l.lin, l.dimIn, l.dimOut) && IsMatrix(l.mask, l.dimOut, l.dimIn)
  }

  /** `LinearSparse.forward` on a batch. */
  function LinearSparseBatch(l: LinearSparse, x: Batch): (y: Batch)
    requires LinearSparseShape(l) && RowsOfWidth(x, l.dimIn)
    ensures |y| == |x| && RowsOfWidth(y, l.dimOut)
  {
    seq(|x|, r requires 0 <= r < |x| => MaskedApply(l.mask, l.lin, x[r]))
  }

  /** The mask array built by `BuildMask`, as the matrix a layer keeps. */
  method CompileMask(adj: AdjacencyList, dimOut: nat, dimIn: nat) returns (mask: Matrix)
    requires Indexable(adj, dimOut, dimIn)
    ensures IsMatrix(mask, dimOut, dimIn)
    ensures forall a, b :: 0 <= a < dimOut && 0 <= b < dimIn ==>
              mask[a][b] == (if Edge(a, b) in adj then 1.0 else 0.0)
    ensures mask == MaskOf(adj, dimOut, dimIn)
  {
    var m := BuildMask(adj, dimOut, dimIn);
    mask := Rows(m);
    var spec := MaskOf(adj, dimOut, dimIn);
    forall a | 0 <= a < dimOut ensures mask[a] == spec[a] {
      assert forall b :: 0 <= b < dimIn ==> mask[a][b] == spec[a][b];
    }
  }

  /** `ConcatSquashLinearSparse.__init__`: the layer keeps the compiled mask
      of `adj` and the freshly drawn parameters `lin` and `gate`. */
  method NewSparseSquash(dimIn: nat, dimOut: nat, adj: AdjacencyList, lin: Affine, gate: TimeGate)
    returns (l: SquashLayer)
    requires Indexable(adj, dimOut, dimIn)
    ensures l == SquashLayer(dimIn, dimOut, Some(MaskOf(adj, dimOut, dimIn)), lin, gate)
  {
    var mask := CompileMask(adj, dimOut, dimIn);
    l := SquashLayer(dimIn, dimOut, Some(mask), lin, gate);
  }

  /** `LinearSparse.__init__`. */
  method NewLinearSparse(dimIn: nat, dimOut: nat, adj: AdjacencyList, lin: Affine)
    returns (l: LinearSparse)
    requires Indexable(adj, dimOut, dimIn)
    ensures l == LinearSparse(dimIn, dimOut, MaskOf(adj, dimOut, dimIn), lin)
  {
    var mask := CompileMask(adj, dimOut, dimIn);
    l := LinearSparse(dimIn, dimOut, mask, lin);
  }

  /** A dot product does not see an entry of `v` whose weight in `u` is 0. */
  lemma {:induction false} DotIgnoresZeroWeight(u: Vector, v: Vector, b: nat, c: real)
    requires |u| == |v| && b < |u| && u[b] == 0.0
    ensures Dot(u, v) == Dot(u, v[b := c])
  {
    if |u| > 0 {
      var n := |u| - 1;
      var v' := v[b := c];
      if b < n {
        assert v'[..n] == v[..n][b := c];
        DotIgnoresZeroWeight(u[..n], v[..n], b, c);
      } else {
        assert v'[..n] == v[..n];
      }
    }
  }

  /** Changing input `b` leaves output `a` of the masked affine map unchanged
      whenever `mask[a][b]` is 0. */
  lemma MaskedApplyIgnoresMaskedInput(mask: Matrix, f: Affine, x: Vector, a: nat, b: nat, c: real)
    requires AffineShape(f, |x|, |f.bias|) && IsMatrix(mask, |f.bias|, |x|)
    requires a < |f.bias| && b < |x| && mask[a][b] == 0.0
    ensures MaskedApply(mask, f, x)[a] == MaskedApply(mask, f, x[b := c])[a]
  {
    var w := EffectiveWeight(mask, f.weight);
    DotIgnoresZeroWeight(w[a], x, b, c);
  }

  /** The non-dependence property of the masked time-modulated layer on a
      batch: changing `x[r][b]` leaves `out[r][a]` unchanged when
      `mask[a][b] == 0`, and leaves every other row of the output unchanged. */
  lemma SparseLayerIgnoresMaskedInput(l: SquashLayer, sigmoid: real -> real, t: real, x: Batch,
                                      r: nat, a: nat, b: nat, c: real)
    requires LayerShape(l) && RowsOfWidth(x, l.dimIn) && l.mask.Some?
    requires r < |x| && a < l.dimOut && b < l.dimIn && l.mask.value[a][b] == 0.0
    ensures RowsOfWidth(x[r := x[r][b := c]], l.dimIn)
    ensures LayerBatch(l, sigmoid, t, x)[r][a] == LayerBatch(l, sigmoid, t, x[r := x[r][b := c]])[r][a]
    ensures forall q :: 0 <= q < |x| && q != r ==>
              LayerBatch(l, sigmoid, t, x)[q] == LayerBatch(l, sigmoid, t, x[r := x[r][b := c]])[q]
  {
    var x' := x[r := x[r][b := c]];
    var res := MaskedApply(l.mask.value, l.lin, x[r]);
    var res' := MaskedApply(l.mask.value, l.lin, x'[r]);
    MaskedApplyIgnoresMaskedInput(l.mask.value, l.lin, x[r], a, b, c);
    assert res[a] == res'[a];
    assert LayerRow(l, sigmoid, t, x[r]) == Modulate(l.gate, sigmoid, t, res);
    assert LayerRow(l, sigmoid, t, x'[r]) == Modulate(l.gate, sigmoid, t, res');
  }

  /** A mask of all ones makes the masked layer the dense layer. */
  lemma FullMaskIsDense(mask: Matrix, f: Affine, x: Vector)
    requires AffineShape(f, |x|, |f.bias|) && IsMatrix(mask, |f.bias|, |x|)
    requires forall a, b :: 0 <= a < |f.bias| && 0 <= b < |x| ==> mask[a][b] == 1.0
    ensures MaskedApply(mask, f, x) == Apply(f, x)
  {
    var w := EffectiveWeight(mask, f.weight);
    forall a | 0 <= a < |w| ensures w[a] == f.weight[a] {
      assert forall b :: 0 <= b < |w[a]| ==> w[a][b] == f.weight[a][b];
    }
    assert w == f.weight;
  }

  /** A mask compiled from an adjacency list removes the influence of every
      input `b < dimIn` on every output `a` for which `[a, b]` is not an edge. */
  lemma CompiledMaskBlocksNonEdges(adj: AdjacencyList, l: SquashLayer, sigmoid: real -> real, t: real,
                                   x: Batch, r: nat, a: nat, b: nat, c: real)
    requires Indexable(adj, l.dimOut, l.dimIn)
    requires LayerShape(l) && RowsOfWidth(x, l.dimIn) && l.mask == Some(MaskOf(adj, l.dimOut, l.dimIn))
    requires r < |x| && a < l.dimOut && b < l.dimIn && Edge(a, b) !in adj
    ensures RowsOfWidth(x[r := x[r][b := c]], l.dimIn)
    ensures LayerBatch(l, sigmoid, t, x)[r][a] == LayerBatch(l, sigmoid, t, x[r := x[r][b := c]])[r][a]
  {
    MaskEntry(adj, l.dimOut, l.dimIn, a, b);
    SparseLayerIgnoresMaskedInput(l, sigmoid, t, x, r, a, b, c);
  }
}
