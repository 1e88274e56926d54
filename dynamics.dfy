/** The dynamics networks `AdaptedODENet` (dense layers) and `SparseODENet`
    (masked layers) of nets.py: layer stacking, the forward loop over the
    layers, and the optional recording of every evaluation.

    The two classes of the source differ only in the kind of layer they stack,
    so one class with one constructor per variant models both. The activation
    (`nn.Tanh`) and the gate's logistic function are parameters. */
module Dynamics {
  import opened Common
  import opened Adjacency
  import opened Masks
  import opened Layers

  /** The number of layers `[first] + [... for _ in range(num_layers - 1)]`
      builds: a non-positive `num_layers` still yields the first layer. */
  function LayerCount(numLayers: int): (n: nat)
    ensures n >= 1
    ensures numLayers >= 1 ==> n == numLayers
    ensures numLayers < 1 ==> n == 1
  {
    if numLayers >= 1 then numLayers else 1
  }

  /** Inputs of layer `l`: `[x, conditioned, t]` for the first, `dims` after. */
  function InputWidth(l: nat, dims: nat, conditionalDims: nat): nat
  {
    if l == 0 then dims + conditionalDims + 1 else dims
  }

  /** The shape discipline of the stacked layers: layer 0 maps
      `dims + conditional_dims + 1` inputs to `dims` outputs, every later layer
      maps `dims` to `dims`. */
  predicate Stacked(layers: seq<SquashLayer>, dims: nat, conditionalDims: nat)
  {
    && |layers| >= 1
    && forall l :: 0 <= l < |layers| ==>
         && LayerShape(layers[l])
         && layers[l].dimIn == InputWidth(l, dims, conditionalDims)
         && layers[l].dimOut == dims
  }

  /** The initial parameter values each `nn.Linear` draws, by layer and entry. */
  datatype ParamSource = ParamSource(
    weight: (nat, nat, nat) -> real,
    bias: (nat, nat) -> real,
    gateWeight: (nat, nat) -> real,
    gateBias: (nat, nat) -> real,
    hyperWeight: (nat, nat) -> real)

  function InitAffine(p: ParamSource, l: nat, dimIn: nat, dimOut: nat): (f: Affine)
    ensures AffineShape(f, dimIn, dimOut)
  {
    Affine(seq(dimOut, a requires 0 <= a < dimOut => seq(dimIn, b requires 0 <= b < dimIn => p.weight(l, a, b))),
           seq(dimOut, a requires 0 <= a < dimOut => p.bias(l, a)))
  }

  function InitGate(p: ParamSource, l: nat, dimOut: nat): (g: TimeGate)
    ensures GateShape(g, dimOut)
  {
    TimeGate(seq(dimOut, a requires 0 <= a < dimOut => p.gateWeight(l, a)),
             seq(dimOut, a requires 0 <= a < dimOut => p.gateBias(l, a)),
             seq(dimOut, a requires 0 <= a < dimOut => p.hyperWeight(l, a)))
  }

  /** `torch.cat([x, conditioned, t * ones([batch, 1])], dim=1)` */
  function NetInput(x: Batch, cond: Batch, t: real): (r: Batch)
    requires |x| == |cond|
    ensures |r| == |x|
  {
    seq(|x|, i requires 0 <= i < |x| => x[i] + cond[i] + [t])
  }

  /** The activation applied entrywise. */
  function Activate(act: real -> real, x: Batch): (r: Batch)
    ensures |r| == |x| && forall i :: 0 <= i < |x| ==> |r[i]| == |x[i]|
  {
    seq(|x|, i requires 0 <= i < |x| => seq(|x[i]|, j requires 0 <= j < |x[i]| => act(x[i][j])))
  }

  /** The residual connection `a + b`, row by row. */
  function Residual(a: Batch, b: Batch): (r: Batch)
    requires |a| == |b| && forall i :: 0 <= i < |a| ==> |a[i]| == |b[i]|
    ensures |r| == |a| && forall i :: 0 <= i < |a| ==> |r[i]| == |a[i]|
  {
    seq(|a|, i requires 0 <= i < |a| => Plus(a[i], b[i]))
  }

  /** What iteration `l` of the forward loop makes of `dx`: the activation
      alone after the first layer, activation plus residual after a middle
      layer, and the bare layer (no activation) after the last. */
  function Step(layers: seq<SquashLayer>, dims: nat, conditionalDims: nat, act: real -> real,
                sigmoid: real -> real, t: real, l: nat, dx: Batch): (r: Batch)
    requires Stacked(layers, dims, conditionalDims) && l < |layers|
    requires RowsOfWidth(dx, InputWidth(l, dims, conditionalDims))
    ensures |r| == |dx| && RowsOfWidth(r, dims)
  {
    var out := LayerBatch(layers[l], sigmoid, t, dx);
    if l < |layers| - 1 then
      if l == 0 then Activate(act, out) else Residual(Activate(act, out), dx)
    else out
  }

  /** `dx` after the first `n` iterations of the forward loop. */
  function Run(layers: seq<SquashLayer>, dims: nat, conditionalDims: nat, act: real -> real,
               sigmoid: real -> real, t: real, input: Batch, n: nat): (r: Batch)
    requires Stacked(layers, dims, conditionalDims) && n <= |layers|
    requires RowsOfWidth(input, dims + conditionalDims + 1)
    ensures |r| == |input|
    ensures RowsOfWidth(r, if n == 0 then dims + conditionalDims + 1 else dims)
  {
    if n == 0 then input
    else Step(layers, dims, conditionalDims, act, sigmoid, t, n - 1,
              Run(layers, dims, conditionalDims, act, sigmoid, t, input, n - 1))
  }

  /** No sample of the batch influences another: row `r` of the network's
      output is a function of row `r` of its input alone. */
  lemma {:induction false} RunIsRowwise(layers: seq<SquashLayer>, dims: nat, conditionalDims: nat,
                                        act: real -> real, sigmoid: real -> real, t: real,
                                        input: Batch, input': Batch, n: nat, r: nat)
    requires Stacked(layers, dims, conditionalDims) && n <= |layers|
    requires RowsOfWidth(input, dims + conditionalDims + 1) && RowsOfWidth(input', dims + conditionalDims + 1)
    requires |input| == |input'| && r < |input| && input[r] == input'[r]
    ensures Run(layers, dims, conditionalDims, act, sigmoid, t, input, n)[r]
         == Run(layers, dims, conditionalDims, act, sigmoid, t, input', n)[r]
  {
    if n > 0 {
      RunIsRowwise(layers, dims, conditionalDims, act, sigmoid, t, input, input', n - 1, r);
    }
  }

  /** In the sparse network, the time column that the forward appends at index
      `dims + conditional_dims` is never an edge target, so the first layer's
      mask blanks it for every output: time reaches the sparse network only
      through the gates. */
  lemma TimeColumnIsMaskedOut(adj: AdjacencyList, dims: nat, conditionalDims: nat, a: nat)
    requires InRange(adj, dims, conditionalDims) && a < dims
    ensures Indexable(adj, dims, dims + conditionalDims + 1)
    ensures MaskOf(adj, dims, dims + conditionalDims + 1)[a][dims + conditionalDims] == 0.0
  {
    MaskEntry(adj, dims, dims + conditionalDims + 1, a, dims + conditionalDims);
  }

  /** Every layer after the first is masked too, with `dim_in = dims`: its mask
      is the latent block of the first layer's mask, so the conditioning edges
      vanish there. */
  lemma DeepMaskIsLatentBlock(adj: AdjacencyList, dims: nat, conditionalDims: nat, a: nat, b: nat)
    requires Indexable(adj, dims, dims + conditionalDims + 1) && a < dims
    ensures Indexable(adj, dims, dims)
    ensures b < dims ==> MaskOf(adj, dims, dims)[a][b] == MaskOf(adj, dims, dims + conditionalDims + 1)[a][b]
    ensures dims <= b < dims + conditionalDims ==>
              (MaskOf(adj, dims, dims + conditionalDims + 1)[a][b] == 1.0 <==> Edge(a, b) in adj)
  {
    if b < dims {
      MaskEntry(adj, dims, dims, a, b);
      MaskEntry(adj, dims, dims + conditionalDims + 1, a, b);
    } else if b < dims + conditionalDims {
      MaskEntry(adj, dims, dims + conditionalDims + 1, a, b);
    }
  }

  lemma RunUnfold(layers: seq<SquashLayer>, dims: nat, conditionalDims: nat, act: real -> real,
                  sigmoid: real -> real, t: real, input: Batch, l: nat)
    requires Stacked(layers, dims, conditionalDims) && l < |layers|
    requires RowsOfWidth(input, dims + conditionalDims + 1)
    ensures Run(layers, dims, conditionalDims, act, sigmoid, t, input, l + 1)
         == Step(layers, dims, conditionalDims, act, sigmoid, t, l, Run(layers, dims, conditionalDims, act, sigmoid, t, input, l))
  {
  }

  /** One iteration of the layer loop of `forward`. */
  method ApplyLayer(layers: seq<SquashLayer>, dims: nat, conditionalDims: nat, act: real -> real,
                    sigmoid: real -> real, t: real, l: nat, dx: Batch) returns (dx': Batch)
    requires Stacked(layers, dims, conditionalDims) && l < |layers|
    requires RowsOfWidth(dx, InputWidth(l, dims, conditionalDims))
    ensures dx' == Step(layers, dims, conditionalDims, act, sigmoid, t, l, dx)
  {
    var acti := LayerBatch(layers[l], sigmoid, t, dx);
    if l < |layers| - 1 {
      if l == 0 {
        dx' := Activate(act, acti);
      } else {
        dx' := Residual(Activate(act, acti), dx);
      }
    } else {
      dx' := acti;
    }
  }

  /** The layer loop of `forward`: reassigns `dx` once per layer. */
  method RunLayers(layers: seq<SquashLayer>, dims: nat, conditionalDims: nat, act: real -> real,
                   sigmoid: real -> real, t: real, input: Batch) returns (dx: Batch)
    requires Stacked(layers, dims, conditionalDims)
    requires RowsOfWidth(input, dims + conditionalDims + 1)
    ensures dx == Run(layers, dims, conditionalDims, act, sigmoid, t, input, |layers|)
  {
    dx := input;
    var l := 0;
    while l < |layers|
      invariant 0 <= l <= |layers|
      invariant dx == Run(layers, dims, conditionalDims, act, sigmoid, t, input, l)
    {
      dx := ApplyLayer(layers, dims, conditionalDims, act, sigmoid, t, l, dx);
      RunUnfold(layers, dims, conditionalDims, act, sigmoid, t, input, l);
      l := l + 1;
    }
  }

  /** One recorded evaluation `(t, dx, x)`. */
  datatype RecordEntry = RecordEntry(t: real, dx: Batch, x: Batch)

  class ODEDynamics {
    const dims: nat
    const conditionalDims: nat
    const layers: seq<SquashLayer>
    const act: real -> real
    const sigmoid: real -> real
    /** The condition batch the forward reads; bound by the caller. */
    var conditioned: Batch
    var record: seq<RecordEntry>
    var isRecording: bool

    predicate Valid()
    {
      Stacked(layers, dims, conditionalDims)
    }

    /** `AdaptedODENet(dims, conditional_dims, num_layers)`: dense layers. */
    constructor Adapted(dims: nat, conditionalDims: nat, numLayers: int,
                        act: real -> real, sigmoid: real -> real, p: ParamSource)
      ensures Valid()
      ensures this.dims == dims && this.conditionalDims == conditionalDims
      ensures this.act == act && this.sigmoid == sigmoid
      ensures |layers| == LayerCount(numLayers)
      ensures forall l :: 0 <= l < |layers| ==>
                layers[l] == SquashLayer(InputWidth(l, dims, conditionalDims), dims, None,
                                         InitAffine(p, l, InputWidth(l, dims, conditionalDims), dims),
                                         InitGate(p, l, dims))
      ensures conditioned == [] && record == [] && !isRecording
    {
      var n := LayerCount(numLayers);
      var ls: seq<SquashLayer> := [];
      var l := 0;
      while l < n
        invariant 0 <= l <= n && |ls| == l
        invariant forall k :: 0 <= k < l ==>
                    ls[k] == SquashLayer(InputWidth(k, dims, conditionalDims), dims, None,
                                         InitAffine(p, k, InputWidth(k, dims, conditionalDims), dims),
                                         InitGate(p, k, dims))
      {
        var w := InputWidth(l, dims, conditionalDims);
        ls := ls + [SquashLayer(w, dims, None, InitAffine(p, l, w, dims), InitGate(p, l, dims))];
        l := l + 1;
      }
      this.dims, this.conditionalDims, this.layers := dims, conditionalDims, ls;
      this.act, this.sigmoid := act, sigmoid;
      conditioned, record, isRecording := [], [], false;
    }

    /** `SparseODENet(dims, conditional_dims, adjacency, device, num_layers)`:
        every layer, not only the first, is masked by the same adjacency. */
    constructor Sparse(dims: nat, conditionalDims: nat, adj: AdjacencyList, numLayers: int,
                       act: real -> real, sigmoid: real -> real, p: ParamSource)
      requires Indexable(adj, dims, dims + conditionalDims + 1)
      ensures Valid()
      ensures this.dims == dims && this.conditionalDims == conditionalDims
      ensures this.act == act && this.sigmoid == sigmoid
      ensures |layers| == LayerCount(numLayers)
      ensures forall l :: 0 <= l < |layers| ==>
                && Indexable(adj, dims, InputWidth(l, dims, conditionalDims))
                && layers[l] == SquashLayer(InputWidth(l, dims, conditionalDims), dims,
                                            Some(MaskOf(adj, dims, InputWidth(l, dims, conditionalDims))),
                                            InitAffine(p, l, InputWidth(l, dims, conditionalDims), dims),
                                            InitGate(p, l, dims))
      ensures conditioned == [] && record == [] && !isRecording
    {
      var n := LayerCount(numLayers);
      var ls: seq<SquashLayer> := [];
      var l := 0;
      while l < n
        invariant 0 <= l <= n && |ls| == l
        invariant forall k :: 0 <= k < l ==>
                    && Indexable(adj, dims, InputWidth(k, dims, conditionalDims))
                    && ls[k] == SquashLayer(InputWidth(k, dims, conditionalDims), dims,
                                            Some(MaskOf(adj, dims, InputWidth(k, dims, conditionalDims))),
                                            InitAffine(p, k, InputWidth(k, dims, conditionalDims), dims),
                                            InitGate(p, k, dims))
      {
        var w := InputWidth(l, dims, conditionalDims);
        var layer := NewSparseSquash(w, dims, adj, InitAffine(p, l, w, dims), InitGate(p, l, dims));
        ls := ls + [layer];
        l := l + 1;
      }
      this.dims, this.conditionalDims, this.layers := dims, conditionalDims, ls;
      this.act, this.sigmoid := act, sigmoid;
      conditioned, record, isRecording := [], [], false;
    }

    /** `diffeq.conditioned = c`: binds a new condition batch. */
    method BindCondition(c: Batch)
      modifies this`conditioned
      ensures conditioned == c
    {
      conditioned := c;
    }

    /** `forward(t, x)`: runs the layer loop on `[x, conditioned, t]` and, when
        recording, appends exactly one entry `(t, dx, x)` to `record`. */
    method Forward(t: real, x: Batch) returns (dx: Batch)
      requires Valid()
      requires |x| == |conditioned|
      requires forall r :: 0 <= r < |x| ==> |x[r]| + |conditioned[r]| == dims + conditionalDims
      modifies this`record
      ensures RowsOfWidth(NetInput(x, conditioned, t), dims + conditionalDims + 1)
      ensures dx == Run(layers, dims, conditionalDims, act, sigmoid, t, NetInput(x, conditioned, t), |layers|)
      ensures |dx| == |x| && RowsOfWidth(dx, dims)
      ensures record == if isRecording then old(record) + [RecordEntry(t, dx, x)] else old(record)
    {
      var input := NetInput(x, conditioned, t);
      assert RowsOfWidth(input, dims + conditionalDims + 1) by {
        forall r | 0 <= r < |input| ensures |input[r]| == dims + conditionalDims + 1 {
          assert input[r] == x[r] + conditioned[r] + [t];
        }
      }
      dx := RunLayers(layers, dims, conditionalDims, act, sigmoid, t, input);
      if isRecording {
        record := record + [RecordEntry(t, dx, x)];
      }
    }
  }
}
