/** The experiment driver of main.py: `init`, which picks the graphical model
    and the dynamics network by name, augments the model, and fixes the
    standardisation statistics and the condition buffer; and the training
    loop with its learning-rate schedule, its choice of objective and its
    moving average of the symmetric KL. */
module Driver {
  import opened Common
  import opened Adjacency
  import opened Graphs
  import Aug = Augmentation
  import Masks
  import Dyn = Dynamics
  import Ode = OdeNetPlan
  import B = Batches
  import L = Loss

  datatype DriverError =
    | ModelUnknown(name: string)
    | AutogenImportFailed(name: string)
    | RetriesExhausted
    | AugmentationFailed(augError: Aug.AugError)
    | StatisticsFailed
    | ConnectivityUnknown(name: string)
    | AttributeMissing(attribute: string)
    | MaskIndexOutOfRange
    | PlanFailed(planError: Ode.PlanError)
    | LossFailed(lossError: L.LossError)
    | IndexError
    | NoSteps

  // ---------------------------------------------------------------- the graphical model

  /** A model from a dynamically imported `autogen*` module, or a built-in one. */
  datatype ModelChoice = Autogen(moduleName: string) | Builtin(kind: ModelKind)

  predicate IsAutogen(name: string)
  {
    |name| >= 7 && name[..7] == "autogen"
  }

  /** The built-in model of each name of the `elif` chain. */
  function BuiltinModel(name: string): Option<ModelKind>
  {
    if name == "gaussian_bn" then Some(GaussianBN)
    else if name == "crazy1d" then Some(Crazy1D)
    else if name == "circle" then Some(Circle)
    else if name == "state_space" then Some(StateSpace)
    else if name == "state_space_larger" then Some(StateSpaceLarger)
    else if name == "8gaussians" then Some(Toy("8gaussians"))
    else if name == "rings" then Some(Toy("rings"))
    else if name == "swissroll" then Some(Toy("swissroll"))
    else if name == "bigger_graph1" then Some(BiggerGraph1)
    else if name == "bigger_graph2" then Some(BiggerGraph2)
    else if name == "bigger_graph3" then Some(BiggerGraph3)
    else if name == "bigger_graph4" then Some(BiggerGraph4)
    else if name == "bigger_graph5" then Some(BiggerGraph5)
    else if name == "bigger_graph6" then Some(BiggerGraph6)
    else if name == "simple_arith_circuit" then Some(SimpleArithmeticCircuit)
    else if name == "ber_gmm" then Some(BernoulliGMM)
    else None
  }

  /** `args.gmodel` from `args.gmodel_name`, or the exception for an unknown name. */
  function ModelOfName(name: string): Result<ModelChoice, DriverError>
  {
    if IsAutogen(name) then Ok(Autogen(name))
    else match BuiltinModel(name)
      case Some(k) => Ok(Builtin(k))
      case None => Err(ModelUnknown(name))
  }

  /** The name under which the driver knows each model. */
  function NameOfModel(k: ModelKind): string
  {
    match k
    case GaussianBN => "gaussian_bn"
    case Crazy1D => "crazy1d"
    case Circle => "circle"
    case StateSpace => "state_space"
    case StateSpaceLarger => "state_space_larger"
    case Toy(dataset) => dataset
    case BiggerGraph1 => "bigger_graph1"
    case BiggerGraph2 => "bigger_graph2"
    case BiggerGraph3 => "bigger_graph3"
    case BiggerGraph4 => "bigger_graph4"
    case BiggerGraph5 => "bigger_graph5"
    case BiggerGraph6 => "bigger_graph6"
    case SimpleArithmeticCircuit => "simple_arith_circuit"
    case BernoulliGMM => "ber_gmm"
  }

  const ToyDatasets: seq<string> := ["8gaussians", "rings", "swissroll"]

  /** Every name the chain knows selects the model of that name, so distinct
      known names select distinct models ... */
  lemma BuiltinModelNamesItsModel(name: string)
    requires BuiltinModel(name).Some?
    ensures NameOfModel(BuiltinModel(name).value) == name
  {
  }

  /** ... and every model reachable by name is reached by its own name. */
  lemma EveryModelHasItsName(k: ModelKind)
    requires k.Toy? ==> k.dataset in ToyDatasets
    ensures BuiltinModel(NameOfModel(k)) == Some(k)
  {
  }

  lemma ModelNamesAreDistinct(n1: string, n2: string)
    requires BuiltinModel(n1).Some? && BuiltinModel(n1) == BuiltinModel(n2)
    ensures n1 == n2
  {
    BuiltinModelNamesItsModel(n1);
    BuiltinModelNamesItsModel(n2);
  }

  /** The exception is raised exactly for a name that is neither an `autogen`
      module nor one of the built-in names. */
  lemma ModelOfNameFailsIff(name: string)
    ensures ModelOfName(name).Err? <==> !IsAutogen(name) && BuiltinModel(name).None?
    ensures ModelOfName(name).Err? ==> ModelOfName(name).error == ModelUnknown(name)
  {
  }

  /** `AugmentedModel(gmodel, to_augment)` when `to_augment` is non-empty,
      the model itself otherwise. */
  function ChosenModel(m: GraphModel, toAugment: seq<nat>): (r: Result<GraphModel, DriverError>)
  {
    if |toAugment| > 0 then
      match Aug.AugmentSpec(m, toAugment)
      case Ok(a) => Ok(a)
      case Err(e) => Err(AugmentationFailed(e))
    else Ok(m)
  }

  /** Without variables to augment the model is untouched; with them, and a
      well-formed model whose augmented indices are latent, the dimensions
      read afterwards are the augmented ones and both adjacencies stay
      well-formed. */
  lemma ChosenModelDimensions(m: GraphModel, toAugment: seq<nat>)
    requires m.faithful.Some? && WellFormed(m.faithful.value, m.dimLatent, m.dimCondition)
    requires m.rand.Some? && WellFormed(m.rand.value, m.dimLatent, m.dimCondition)
    requires forall x :: x in toAugment ==> x < m.dimLatent
    ensures ChosenModel(m, toAugment).Ok?
    ensures var c := ChosenModel(m, toAugment).value;
            && c.dimLatent == m.dimLatent + |toAugment| && c.dimCondition == m.dimCondition
            && WellFormed(c.faithful.value, c.dimLatent, c.dimCondition)
            && WellFormed(c.rand.value, c.dimLatent, c.dimCondition)
            && (toAugment == [] ==> c == m)
  {
    if |toAugment| > 0 {
      Aug.AugmentKeepsWellFormed(m, toAugment);
    }
  }

  // ---------------------------------------------------------------- statistics

  const MinStd: real := 0.00001

  /** `torch.max(std, ones_like(std) * min_std)`. */
  function ClampScale(std: Vector): (s: Vector)
    ensures |s| == |std|
  {
    seq(|std|, c requires 0 <= c < |std| => if std[c] >= MinStd then std[c] else MinStd)
  }

  /** Every scale is at least `1e-5`, hence positive, never below the
      standard deviation, and equal to it where that is already large
      enough; so standardisation never divides by zero. */
  lemma ClampScaleBounds(std: Vector)
    ensures L.NonZero(ClampScale(std))
    ensures forall c :: 0 <= c < |std| ==>
              ClampScale(std)[c] >= MinStd > 0.0 && ClampScale(std)[c] >= std[c] &&
              (std[c] >= MinStd ==> ClampScale(std)[c] == std[c])
  {
  }

  lemma ClampScaleIdempotent(std: Vector)
    ensures ClampScale(ClampScale(std)) == ClampScale(std)
  {
  }

  /** `torch.mean(b, dim=0)` of a stacked batch. */
  function ColumnMeans(b: Batch): (r: Vector)
    requires B.Stackable(b)
    ensures |r| == |b[0]|
  {
    seq(|b[0]|, c requires 0 <= c < |b[0]| =>
      Mean(seq(|b|, i requires 0 <= i < |b| => if c < |b[i]| then b[i][c] else 0.0)))
  }

  /** Each column mean is a batch mean. */
  lemma ColumnMeanOfConstantColumn(b: Batch, c: nat, v: real)
    requires B.Stackable(b) && c < |b[0]|
    requires forall i :: 0 <= i < |b| ==> b[i][c] == v
    ensures ColumnMeans(b)[c] == v
  {
    var col := seq(|b|, i requires 0 <= i < |b| => if c < |b[i]| then b[i][c] else 0.0);
    MeanOfConstant(col, v);
  }

  /** The Python slice `s[0:stop]`: a negative `stop` counts from the end, and
      both ends are clamped. */
  function PrefixSlice<T>(s: seq<T>, stop: int): (r: seq<T>)
    ensures |r| <= |s|
  {
    var end := if stop >= 0 then (if stop <= |s| then stop else |s|)
               else (if |s| + stop >= 0 then |s| + stop else 0);
    s[..end]
  }

  /** `ys[0:batch_size]` has `batch_size` rows, the first ones, whenever the
      statistics batch has that many; otherwise all of them; and a negative
      size drops rows from the end. */
  lemma PrefixSliceLength<T>(s: seq<T>, stop: int)
    ensures 0 <= stop <= |s| ==> PrefixSlice(s, stop) == s[..stop] && |PrefixSlice(s, stop)| == stop
    ensures stop > |s| ==> PrefixSlice(s, stop) == s
    ensures stop < 0 ==> |PrefixSlice(s, stop)| == (if |s| + stop >= 0 then |s| + stop else 0)
  {
  }

  // ---------------------------------------------------------------- the dynamics network

  /** The network `init` builds, before its parameters are drawn. */
  datatype NetSpec = DenseNet(numLayers: int) | SparseNet(adj: AdjacencyList, numLayers: int) | FfjordBaseline

  const ConnectivityNames: seq<string> :=
    ["fully_connected", "faithful", "faithful_large", "faithful_small", "random_sparse", "ffjord_baseline"]

  /** `args.diffeq` from `args.flow_connectivity`: an adjacency attribute the
      model lacks is an AttributeError, an unknown name an exception. */
  function ConnectivityOf(name: string, m: GraphModel): (r: Result<NetSpec, DriverError>)
  {
    if name == "fully_connected" then Ok(DenseNet(4))
    else if name == "faithful" || name == "faithful_large" || name == "faithful_small" then
      if m.faithful.None? then Err(AttributeMissing("faithful_adjacency"))
      else Ok(SparseNet(m.faithful.value, if name == "faithful" then 4 else if name == "faithful_large" then 8 else 2))
    else if name == "random_sparse" then
      if m.rand.None? then Err(AttributeMissing("rand_adjacency"))
      else Ok(SparseNet(m.rand.value, 4))
    else if name == "ffjord_baseline" then Ok(FfjordBaseline)
    else Err(ConnectivityUnknown(name))
  }

  /** The table of connectivities: the dense net and the baseline ignore the
      model, the three faithful nets mask with the faithful adjacency at 4, 8
      and 2 layers, the random one with the random adjacency at 4; any other
      name is refused. */
  lemma ConnectivityTable(name: string, m: GraphModel)
    ensures ConnectivityOf(name, m).Err? ==>
              || (name !in ConnectivityNames && ConnectivityOf(name, m).error == ConnectivityUnknown(name))
              || (name in ConnectivityNames[1..4] && m.faithful.None?)
              || (name == "random_sparse" && m.rand.None?)
    ensures name !in ConnectivityNames ==> ConnectivityOf(name, m) == Err(ConnectivityUnknown(name))
    ensures name in ConnectivityNames[1..4] && m.faithful.Some? ==>
              ConnectivityOf(name, m) == Ok(SparseNet(m.faithful.value, [4, 8, 2][if name == "faithful" then 0 else if name == "faithful_large" then 1 else 2]))
    ensures name == "random_sparse" && m.rand.Some? ==> ConnectivityOf(name, m) == Ok(SparseNet(m.rand.value, 4))
    ensures name == "fully_connected" ==> ConnectivityOf(name, m) == Ok(DenseNet(4))
  {
  }

  /** A well-formed adjacency can always be compiled into the first mask of
      a sparse net. */
  lemma WellFormedIsIndexable(adj: AdjacencyList, dl: nat, dc: nat)
    requires WellFormed(adj, dl, dc)
    ensures Masks.Indexable(adj, dl, dl + dc + 1)
  {
  }

  /** The oracles `init` consults: the autogen modules, the uniform draws of
      the random adjacencies with their retry budget, `torch.std`, the
      parameter initialisation, the activations, and the flow library's own
      defaults. */
  datatype InitOracles = InitOracles(
    autogen: string -> Option<GraphModel>,
    draw: (nat, nat, nat) -> real,
    fuel: nat,
    std: Batch -> Vector,
    params: Dyn.ParamSource,
    act: real -> real,
    sigmoid: real -> real,
    libCnf: L.CnfSettings,
    diffeqModules: seq<L.Module>)

  /** What `init` leaves in `args`. */
  datatype Setup = Setup(base: GraphModel, model: GraphModel, net: NetSpec, dynamics: Option<Dyn.ODEDynamics>,
                         plan: Option<Ode.Plan>, cnf: seq<L.Module>, args: L.FlowArgs)

  /** The graphical model: built in, or from an `autogen` module. */
  method NewModel(name: string, o: InitOracles) returns (r: Result<GraphModel, DriverError>)
    ensures ModelOfName(name).Err? ==> r == Err(ModelOfName(name).error)
    ensures ModelOfName(name) == Ok(Autogen(name)) ==>
              r == (if o.autogen(name).Some? then Ok(o.autogen(name).value) else Err(AutogenImportFailed(name)))
    ensures r.Ok? && ModelOfName(name).Ok? && ModelOfName(name).value.Builtin? ==>
              BuiltAs(ModelOfName(name).value.kind, o.draw, o.fuel, r.value)
    ensures r.Err? && ModelOfName(name).Ok? && ModelOfName(name).value.Builtin? ==> r == Err(RetriesExhausted)
    ensures r == Err(RetriesExhausted) ==>
              && ModelOfName(name).Ok? && ModelOfName(name).value.Builtin?
              && var k := ModelOfName(name).value.kind;
                 RandRuleOf(k).Drawn? && FaithfulTable(k).Some? && AllAttemptsMiss(k, o.draw, o.fuel)
  {
    var choice := ModelOfName(name);
    if choice.Err? {
      return Err(choice.error);
    }
    match choice.value
    case Autogen(n) =>
      if o.autogen(n).None? {
        return Err(AutogenImportFailed(n));
      }
      r := Ok(o.autogen(n).value);
    case Builtin(k) =>
      var m := NewGraphModel(k, o.draw, o.fuel);
      if m.None? {
        return Err(RetriesExhausted);
      }
      r := Ok(m.value);
  }

  /** The graphical model `init` builds (`base`), and the one it goes on
      with (`model`): `base` augmented when there are variables to augment. */
  method ChooseModel(name: string, toAugment: seq<nat>, o: InitOracles)
    returns (base: Result<GraphModel, DriverError>, model: Result<GraphModel, DriverError>)
    ensures ModelOfName(name).Err? ==> base == Err(ModelOfName(name).error)
    ensures ModelOfName(name) == Ok(Autogen(name)) ==>
              base == (if o.autogen(name).Some? then Ok(o.autogen(name).value) else Err(AutogenImportFailed(name)))
    ensures base.Ok? && ModelOfName(name).Ok? && ModelOfName(name).value.Builtin? ==>
              BuiltAs(ModelOfName(name).value.kind, o.draw, o.fuel, base.value)
    ensures base.Err? && ModelOfName(name).Ok? && ModelOfName(name).value.Builtin? ==> base == Err(RetriesExhausted)
    ensures base == Err(RetriesExhausted) ==>
              && ModelOfName(name).Ok? && ModelOfName(name).value.Builtin?
              && var k := ModelOfName(name).value.kind;
                 RandRuleOf(k).Drawn? && FaithfulTable(k).Some? && AllAttemptsMiss(k, o.draw, o.fuel)
    ensures base.Err? ==> model == Err(base.error)
    ensures base.Ok? ==> model == ChosenModel(base.value, toAugment)
  {
    base := NewModel(name, o);
    if base.Err? {
      return base, Err(base.error);
    }
    model := base;
    if |toAugment| > 0 {
      var a := Aug.Augment(base.value, toAugment);
      if a.Err? {
        return base, Err(AugmentationFailed(a.error));
      }
      model := Ok(a.value);
    }
  }

  /** `d` is the network of `net` for `dl` latent and `dc` condition
      variables: its widths, its number of layers, and in every layer no mask
      for a dense net, or the mask of the net's adjacency at that layer's
      input width for a sparse one. */
  ghost predicate NetOf(d: Dyn.ODEDynamics, net: NetSpec, dl: nat, dc: nat)
    reads d
  {
    && d.Valid() && d.dims == dl && d.conditionalDims == dc
    && !net.FfjordBaseline?
    && |d.layers| == Dyn.LayerCount(net.numLayers)
    && (net.DenseNet? ==> forall l :: 0 <= l < |d.layers| ==> d.layers[l].mask.None?)
    && (net.SparseNet? ==>
          forall l :: 0 <= l < |d.layers| ==>
            && Masks.Indexable(net.adj, dl, Dyn.InputWidth(l, dl, dc))
            && d.layers[l].mask == Some(Masks.MaskOf(net.adj, dl, Dyn.InputWidth(l, dl, dc))))
  }

  /** `plan` is the baseline `ODENet` of main.py for `dl` latent and `dc`
      condition variables: four linear concat-squash layers of widths
      `dl + dc -> 64 -> 64 -> 64 -> dl` without convolution arguments, tanh
      between them, and the hidden shape back at `(dl,)`. */
  ghost predicate BaselineOf(plan: Ode.Plan, dl: nat, dc: nat)
  {
    var cls := Ode.Linear(Ode.ConcatSquash);
    && plan.layers == [Ode.LayerPlan(cls, dl + dc, 64, None), Ode.LayerPlan(cls, 64, 64, None),
                       Ode.LayerPlan(cls, 64, 64, None), Ode.LayerPlan(cls, 64, dl, None)]
    && plan.activations == [Ode.Tanh, Ode.Tanh, Ode.Tanh]
    && plan.finalShape == [dl]
  }

  /** The layers `NewODENet` plans for the baseline's arguments, spelled out. */
  lemma BaselinePlanned(plan: Ode.Plan, dl: nat, dc: nat)
    requires |plan.layers| == 4
    requires var outs := [64, 64, 64, dl];
             forall k :: 0 <= k < 4 ==>
               Ode.PlannedLayer(plan.layers[k], k, Ode.Linear(Ode.ConcatSquash), [dl], outs,
                                Ode.EffectiveStrides(false, [], [64, 64, 64]), dc)
    requires plan.activations == seq(3, _ => Ode.Tanh)
    requires plan.finalShape == [dl]
    ensures BaselineOf(plan, dl, dc)
  {
    var outs := [64, 64, 64, dl];
    var sts := Ode.EffectiveStrides(false, [], [64, 64, 64]);
    assert Ode.PlannedLayer(plan.layers[0], 0, Ode.Linear(Ode.ConcatSquash), [dl], outs, sts, dc);
    assert Ode.PlannedLayer(plan.layers[1], 1, Ode.Linear(Ode.ConcatSquash), [dl], outs, sts, dc);
    assert Ode.PlannedLayer(plan.layers[2], 2, Ode.Linear(Ode.ConcatSquash), [dl], outs, sts, dc);
    assert Ode.PlannedLayer(plan.layers[3], 3, Ode.Linear(Ode.ConcatSquash), [dl], outs, sts, dc);
  }

  /** The dynamics network of a connectivity choice. */
  method NewNet(net: NetSpec, dl: nat, dc: nat, o: InitOracles)
    returns (r: Result<(Option<Dyn.ODEDynamics>, Option<Ode.Plan>), DriverError>)
    ensures net.DenseNet? ==> r.Ok? && r.value.0.Some? && r.value.1.None?
    ensures net.DenseNet? ==> fresh(r.value.0.value) && NetOf(r.value.0.value, net, dl, dc)
    ensures net.SparseNet? ==> (r.Err? <==> !Masks.Indexable(net.adj, dl, dl + dc + 1))
    ensures net.SparseNet? && r.Err? ==> r.error == MaskIndexOutOfRange
    ensures net.SparseNet? && r.Ok? ==>
              && r.value.0.Some? && r.value.1.None?
              && fresh(r.value.0.value) && NetOf(r.value.0.value, net, dl, dc)
    ensures net.FfjordBaseline? ==>
              && r.Ok? && r.value.0.None? && r.value.1.Some?
              && BaselineOf(r.value.1.value, dl, dc)
  {
    if net.DenseNet? {
      var d := new Dyn.ODEDynamics.Adapted(dl, dc, net.numLayers, o.act, o.sigmoid, o.params);
      r := Ok((Some(d), None));
    } else if net.SparseNet? {
      if !Masks.Indexable(net.adj, dl, dl + dc + 1) {
        return Err(MaskIndexOutOfRange);
      }
      var d := new Dyn.ODEDynamics.Sparse(dl, dc, net.adj, net.numLayers, o.act, o.sigmoid, o.params);
      r := Ok((Some(d), None));
    } else {
      Ode.FfjordBaselineIsAdmissible(dl);
      var plan := Ode.NewODENet([64, 64, 64], [dl], [], false, "concatsquash", "tanh", dc);
      Ode.LinearPlanKeepsShape([64, 64, 64], [dl], []);
      BaselinePlanned(plan.value, dl, dc);
      r := Ok((None, Some(plan.value)));
    }
  }

  /** The error `init` stops with, if any, once the graphical model has been
      built (or has failed to be): the failures of augmentation, of the
      statistics batch, of the connectivity choice and of the first mask of
      a sparse net, checked in the order the source reaches them. */
  function SetupFailure(built: Result<GraphModel, DriverError>, toAugment: seq<nat>,
                        stats: Result<(Batch, Batch), B.BatchError>, flowConnectivity: string): Option<DriverError>
  {
    if built.Err? then Some(built.error)
    else match ChosenModel(built.value, toAugment)
      case Err(e) => Some(e)
      case Ok(model) =>
        if stats.Err? then Some(StatisticsFailed)
        else match ConnectivityOf(flowConnectivity, model)
          case Err(e) => Some(e)
          case Ok(net) =>
            if net.SparseNet? && !Masks.Indexable(net.adj, model.dimLatent, model.dimLatent + model.dimCondition + 1)
            then Some(MaskIndexOutOfRange)
            else None
  }

  /** A well-formed model augmented at latent indices never fails past the
      statistics: every connectivity name the source knows builds its net,
      since the masks of a well-formed adjacency are always in range. */
  lemma WellFormedModelSetsUp(m: GraphModel, toAugment: seq<nat>, stats: Result<(Batch, Batch), B.BatchError>,
                              flowConnectivity: string)
    requires m.faithful.Some? && WellFormed(m.faithful.value, m.dimLatent, m.dimCondition)
    requires m.rand.Some? && WellFormed(m.rand.value, m.dimLatent, m.dimCondition)
    requires forall x :: x in toAugment ==> x < m.dimLatent
    requires stats.Ok? && flowConnectivity in ConnectivityNames
    ensures SetupFailure(Ok(m), toAugment, stats, flowConnectivity).None?
  {
    ChosenModelDimensions(m, toAugment);
    var c := ChosenModel(m, toAugment).value;
    ConnectivityTable(flowConnectivity, c);
    WellFormedIsIndexable(c.faithful.value, c.dimLatent, c.dimCondition);
    WellFormedIsIndexable(c.rand.value, c.dimLatent, c.dimCondition);
  }

  /** `init(seed, config, _run)`. `gmodel` is the graphical model the model
      choice produced, before any augmentation. */
  method Init(gmodelName: string, toAugment: seq<nat>, flowConnectivity: string, batchSize: int,
              integrationTimes: seq<real>, o: InitOracles, sampler: B.Sampler)
    returns (r: Result<Setup, DriverError>, ghost gmodel: Result<GraphModel, DriverError>)
    modifies sampler`calls
    ensures ModelOfName(gmodelName).Err? ==> gmodel == Err(ModelOfName(gmodelName).error)
    ensures ModelOfName(gmodelName) == Ok(Autogen(gmodelName)) ==>
              gmodel == (if o.autogen(gmodelName).Some? then Ok(o.autogen(gmodelName).value)
                        else Err(AutogenImportFailed(gmodelName)))
    ensures gmodel.Ok? && ModelOfName(gmodelName).Ok? && ModelOfName(gmodelName).value.Builtin? ==>
              BuiltAs(ModelOfName(gmodelName).value.kind, o.draw, o.fuel, gmodel.value)
    ensures gmodel.Err? && ModelOfName(gmodelName).Ok? && ModelOfName(gmodelName).value.Builtin? ==>
              gmodel == Err(RetriesExhausted)
    ensures gmodel == Err(RetriesExhausted) ==>
              && ModelOfName(gmodelName).Ok? && ModelOfName(gmodelName).value.Builtin?
              && var k := ModelOfName(gmodelName).value.kind;
                 RandRuleOf(k).Drawn? && FaithfulTable(k).Some? && AllAttemptsMiss(k, o.draw, o.fuel)
    ensures r.Err? <==>
              SetupFailure(gmodel, toAugment, B.CreateBatchSpec(sampler.draw, old(sampler.calls), 10000, 1), flowConnectivity).Some?
    ensures r.Err? ==>
              r.error == SetupFailure(gmodel, toAugment, B.CreateBatchSpec(sampler.draw, old(sampler.calls), 10000, 1), flowConnectivity).value
    ensures gmodel.Ok? && ChosenModel(gmodel.value, toAugment).Ok? ==> sampler.calls == old(sampler.calls) + 10000
    ensures gmodel.Err? || ChosenModel(gmodel.value, toAugment).Err? ==> sampler.calls == old(sampler.calls)
    ensures r.Ok? ==> gmodel == Ok(r.value.base)
    ensures r.Ok? ==> ChosenModel(r.value.base, toAugment) == Ok(r.value.model)
    ensures r.Ok? && ModelOfName(gmodelName) == Ok(Autogen(gmodelName)) ==>
              o.autogen(gmodelName) == Some(r.value.base)
    ensures r.Ok? ==> (r.value.net.FfjordBaseline? <==> r.value.dynamics.None?) &&
                      (r.value.net.FfjordBaseline? <==> r.value.plan.Some?)
    ensures r.Ok? && r.value.plan.Some? ==>
              BaselineOf(r.value.plan.value, r.value.model.dimLatent, r.value.model.dimCondition)
    ensures r.Ok? && r.value.dynamics.Some? ==>
              fresh(r.value.dynamics.value) &&
              NetOf(r.value.dynamics.value, r.value.net, r.value.model.dimLatent, r.value.model.dimCondition)
    ensures r.Ok? ==>
              var s := r.value;
              var stats := B.CreateBatchSpec(sampler.draw, old(sampler.calls), 10000, 1);
              && sampler.calls == old(sampler.calls) + 10000
              && stats.Ok?
              && ConnectivityOf(flowConnectivity, s.model) == Ok(s.net)
              && fresh(s.args) && s.args.Valid() && s.args.sampler == sampler
              && s.args.batchSize == batchSize && s.args.integrationTimes == integrationTimes
              && s.args.xscale == ClampScale(o.std(stats.value.0))
              && s.args.yscale == ClampScale(o.std(stats.value.1))
              && s.args.xshift == ColumnMeans(stats.value.0)
              && s.args.yshift == ColumnMeans(stats.value.1)
              && s.args.conditioned == PrefixSlice(stats.value.1, batchSize)
              && s.cnf == L.CreateCnf(o.libCnf, o.diffeqModules, false)
              && (s.dynamics.Some? ==> s.dynamics.value.conditioned == s.args.conditioned)
  {
    var base, chosen := ChooseModel(gmodelName, toAugment, o);
    gmodel := base;
    if chosen.Err? {
      r := Err(chosen.error);
      return;
    }
    var model := chosen.value;
    var dl, dc := model.dimLatent, model.dimCondition;

    var stats := B.CreateBatch(sampler, 10000, 1);
    if stats.Err? {
      r := Err(StatisticsFailed);
      return;
    }
    var (xs, ys) := stats.value;
    var xscale := ClampScale(o.std(xs));
    var xshift := ColumnMeans(xs);
    var yscale := ClampScale(o.std(ys));
    var yshift := ColumnMeans(ys);
    ClampScaleBounds(o.std(xs));
    ClampScaleBounds(o.std(ys));

    var net := ConnectivityOf(flowConnectivity, model);
    if net.Err? {
      r := Err(net.error);
      return;
    }
    var built := NewNet(net.value, dl, dc, o);
    if built.Err? {
      r := Err(built.error);
      return;
    }
    var conditioned := PrefixSlice(ys, batchSize);
    var (dynamics, plan) := built.value;
    if dynamics.Some? {
      dynamics.value.BindCondition(conditioned);
    }
    var cnf := L.CreateCnf(o.libCnf, o.diffeqModules, false);
    var args := new L.FlowArgs(sampler, batchSize, xshift, xscale, yshift, yscale, integrationTimes, conditioned);
    r := Ok(Setup(base.value, model, net.value, dynamics, plan, cnf, args));
  }

  // ---------------------------------------------------------------- learning rate

  /** The three independent checks of step `i` of `n`: at `int(0.5 n)` the
      rate is multiplied by 0.1, at `int(0.8 n)` by 0.1, at `int(0.95 n)` by 0.5. */
  function DecayStep(lr: real, n: int, i: int): real
  {
    var a := if i == n / 2 then lr * 0.1 else lr;
    var b := if i == 4 * n / 5 then a * 0.1 else a;
    if i == 19 * n / 20 then b * 0.5 else b
  }

  /** The rate in force after the checks of steps `0 .. k - 1`. */
  function LrAfter(lr0: real, n: int, k: nat): real
  {
    if k == 0 then lr0 else DecayStep(LrAfter(lr0, n, k - 1), n, k - 1)
  }

  /** The factor of the thresholds already passed after `k` of `n >= 0`
      steps; the thresholds come in the order of their fractions. */
  function Passed(n: int, k: nat): real
  {
    if 19 * n / 20 < k then 0.005
    else if 4 * n / 5 < k then 0.01
    else if n / 2 < k then 0.1
    else 1.0
  }

  /** Each threshold fires exactly once, also where several coincide: the
      rate is the initial rate times the factors passed. */
  lemma {:induction false} LrClosedForm(lr0: real, n: int, k: nat)
    requires n >= 0
    ensures LrAfter(lr0, n, k) == lr0 * Passed(n, k)
  {
    if k > 0 {
      var i := k - 1;
      LrClosedForm(lr0, n, i);
      assert n / 2 <= 4 * n / 5 <= 19 * n / 20;
      if 19 * n / 20 < i {
        assert LrAfter(lr0, n, k) == lr0 * 0.005;
      } else if 4 * n / 5 < i {
        assert LrAfter(lr0, n, i) == lr0 * 0.01;
      } else if n / 2 < i {
        assert LrAfter(lr0, n, i) == lr0 * 0.1;
      } else {
        assert LrAfter(lr0, n, i) == lr0;
      }
    }
  }

  /** After all `n >= 1` steps the rate is `lr0 * 0.005`. */
  lemma FinalLr(lr0: real, n: int)
    requires n >= 1
    ensures LrAfter(lr0, n, n) == lr0 * 0.005
  {
    LrClosedForm(lr0, n, n);
  }

  /** The rate never increases and stays non-negative. */
  lemma LrNeverIncreases(lr0: real, n: int, k: nat)
    requires lr0 >= 0.0 && n >= 0
    ensures 0.0 <= LrAfter(lr0, n, k + 1) <= LrAfter(lr0, n, k)
  {
    LrClosedForm(lr0, n, k);
    LrClosedForm(lr0, n, k + 1);
  }

  /** With one step, all three thresholds fall on step 0 and all fire. */
  lemma OneStepFiresAllThresholds(lr0: real)
    ensures DecayStep(lr0, 1, 0) == lr0 * 0.1 * 0.1 * 0.5
  {
  }

  // ---------------------------------------------------------------- moving average

  const MinKl: real := 0.00001

  /** One update of `moving_sym_kl` with the KL estimates `f` and `r`. */
  function MovingUpdate(m: Option<real>, f: real, r: real): real
  {
    match m
    case None => 0.5 * (f + r)
    case Some(prev) =>
      var v := 0.95 * prev + 0.05 * (0.5 * (f + r));
      if v >= MinKl then v else MinKl
  }

  /** `moving_sym_kl` after the steps whose KL estimates are `history`. */
  function MovingOf(history: seq<(real, real)>): Option<real>
  {
    if history == [] then None
    else
      var (f, r) := history[|history| - 1];
      Some(MovingUpdate(MovingOf(history[..|history| - 1]), f, r))
  }

  /** From the second step on the average is at least `1e-5` and is the
      clamped convex combination; the first step is not clamped. */
  lemma MovingUpdateBounds(m: Option<real>, f: real, r: real)
    ensures m.Some? ==> MovingUpdate(m, f, r) >= MinKl
    ensures m.Some? ==> MovingUpdate(m, f, r) >= 0.95 * m.value + 0.05 * (0.5 * (f + r))
    ensures m.None? ==> MovingUpdate(m, f, r) == 0.5 * (f + r)
  {
  }

  lemma MovingFloor(history: seq<(real, real)>)
    requires |history| >= 2
    ensures MovingOf(history).Some? && MovingOf(history).value >= MinKl
  {
    assert MovingOf(history[..|history| - 1]).Some?;
  }

  /** A negative first estimate passes through unclamped. */
  lemma FirstAverageIsUnclamped()
    ensures MovingOf([(-1.0, -1.0)]) == Some(-1.0)
  {
  }

  /** A constant symmetric KL of at least `1e-5` is a fixed point. */
  lemma MovingFixedPoint(c: real, f: real, r: real)
    requires c >= MinKl && 0.5 * (f + r) == c
    ensures MovingUpdate(Some(c), f, r) == c
  {
  }

  // ---------------------------------------------------------------- the objective

  /** The quantity `loss_choice` back-propagates, `None` when no branch
      matches, or the IndexError of a missing regularisation state. */
  function Objective(choice: string, res: L.FlowResult): Result<Option<real>, DriverError>
  {
    var f, r := res.forwardKl, res.reverseKl;
    if choice == "forward" then Ok(Some(f))
    else if choice == "backward" then Ok(Some(r))
    else if choice == "sym" then Ok(Some(f + r))
    else if choice == "sym_reg" then
      if L.RegAngle(res.reverseReg, 0).None? then Err(IndexError) else Ok(Some(f + r + L.RegAngle(res.reverseReg, 0).value))
    else if choice == "forw_reg" then
      if L.RegAngle(res.reverseReg, 0).None? then Err(IndexError) else Ok(Some(f + L.RegAngle(res.reverseReg, 0).value))
    else if choice == "reg_only" then
      if L.RegAngle(res.forwardReg, 1).None? || L.RegAngle(res.forwardReg, 0).None? ||
         L.RegAngle(res.reverseReg, 1).None? || L.RegAngle(res.reverseReg, 0).None?
      then Err(IndexError)
      else Ok(Some(L.RegAngle(res.reverseReg, 0).value))
    else Ok(None)
  }

  const LossChoices: seq<string> := ["forward", "backward", "sym", "sym_reg", "forw_reg", "reg_only"]

  /** The symmetric objectives are sums of the one-sided ones; the
      regularised ones add the reverse angle; only an unknown choice skips
      the backward pass. */
  lemma ObjectivesRelate(res: L.FlowResult)
    ensures Objective("sym", res).value.value ==
              Objective("forward", res).value.value + Objective("backward", res).value.value
    ensures Objective("sym_reg", res).Ok? <==> Objective("forw_reg", res).Ok?
    ensures Objective("sym_reg", res).Ok? ==>
              Objective("sym_reg", res).value.value == Objective("sym", res).value.value + res.reverseReg[0][1] &&
              Objective("forw_reg", res).value.value == Objective("forward", res).value.value + res.reverseReg[0][1]
    ensures Objective("reg_only", res).Ok? ==> Objective("sym_reg", res).Ok?
  {
  }

  lemma ObjectiveSkipsIff(choice: string, res: L.FlowResult)
    ensures Objective(choice, res) == Ok(None) <==> choice !in LossChoices
  {
  }

  // ---------------------------------------------------------------- training

  /** The three checks at the head of iteration `i` of `n`, on the rate of
      the single parameter group. */
  method Schedule(lr: real, n: int, i: int) returns (lr': real)
    ensures lr' == DecayStep(lr, n, i)
  {
    lr' := lr;
    if i == n / 2 {
      lr' := lr' * 0.1;
    }
    if i == 4 * n / 5 {
      lr' := lr' * 0.1;
    }
    if i == 19 * n / 20 {
      lr' := lr' * 0.5;
    }
  }

  /** The KL pair an iteration logs, or the error that ends the loop: the
      loss's own, or the IndexError of the chosen objective. */
  function StepResult(res: Result<L.FlowResult, L.LossError>, choice: string): Result<(real, real), DriverError>
  {
    match res
    case Err(e) => Err(LossFailed(e))
    case Ok(v) =>
      match Objective(choice, v)
      case Err(e) => Err(e)
      case Ok(_) => Ok((v.forwardKl, v.reverseKl))
  }

  /** An iteration stops the loop exactly when the loss fails or the chosen
      objective reads a regularisation state that is not there. */
  lemma StepResultFailsIff(res: Result<L.FlowResult, L.LossError>, choice: string)
    ensures StepResult(res, choice).Err? <==> res.Err? || Objective(choice, res.value).Err?
    ensures StepResult(res, choice).Ok? ==>
              StepResult(res, choice).value == (res.value.forwardKl, res.value.reverseKl)
  {
  }

  /** The body of one iteration after the schedule: `compute_loss` and the
      objective. */
  method TrainStep(args: L.FlowArgs, lossChoice: string, cnf: L.Cnf, dens: L.Densities, noise: (nat, nat) -> real)
    returns (r: Result<(real, real), DriverError>)
    requires args.Valid()
    modifies args, args.sampler
    ensures args.Valid()
    ensures args.sampler.calls == old(args.sampler.calls) + B.Times(args.batchSize)
    ensures var o := L.LossSpec(args.sampler.draw, old(args.sampler.calls), args.batchSize,
                                args.xshift, args.xscale, args.yshift, args.yscale, old(args.conditioned),
                                args.integrationTimes, cnf, dens, noise);
            && r == StepResult(o.result, lossChoice)
            && (args.conditioned, args.direction) == L.StateAfter(o, old(args.conditioned), old(args.direction))
  {
    var res := args.ComputeLoss(cnf, dens, noise);
    if res.Err? {
      return Err(LossFailed(res.error));
    }
    var objective := Objective(lossChoice, res.value);
    if objective.Err? {
      return Err(objective.error);
    }
    r := Ok((res.value.forwardKl, res.value.reverseKl));
  }

  /** The sampler's call count after `k` batches of `t` draws each. */
  function CallsAfter(calls: nat, t: nat, k: nat): nat
  {
    if k == 0 then calls else CallsAfter(calls, t, k - 1) + t
  }

  /** `k` batches make `k` times the draws of one. */
  lemma {:induction false} CallsAfterIsProduct(calls: nat, t: nat, k: nat)
    ensures CallsAfter(calls, t, k) == calls + k * t
  {
    if k > 0 {
      CallsAfterIsProduct(calls, t, k - 1);
      BatchesAdd(k - 1, t);
    }
  }

  /** The condition buffer and the direction after the losses of iterations
      `0 .. k - 1`, started from `buffer` and `direction` with the sampler at
      call `calls`: iteration `i` draws its batch where the one before
      stopped, with the flow and noise of step `i`. */
  function LossStateAfter(draw: nat -> (Vector, Vector), batchSize: int,
                          xshift: Vector, xscale: Vector, yshift: Vector, yscale: Vector, times: seq<real>,
                          cnfAt: nat -> L.Cnf, dens: L.Densities, noiseAt: nat -> (nat, nat) -> real,
                          buffer: Batch, direction: real, calls: nat, k: nat): (Batch, real)
    requires L.NonZero(xscale) && L.NonZero(yscale)
  {
    if k == 0 then (buffer, direction)
    else
      var (b, d) := LossStateAfter(draw, batchSize, xshift, xscale, yshift, yscale, times,
                                   cnfAt, dens, noiseAt, buffer, direction, calls, k - 1);
      L.StateAfter(L.LossSpec(draw, CallsAfter(calls, B.Times(batchSize), k - 1), batchSize,
                              xshift, xscale, yshift, yscale, b, times, cnfAt(k - 1), dens, noiseAt(k - 1)), b, d)
  }

  /** The draws of `i + 1` batches of `t` rows are those of `i` batches and one more. */
  lemma BatchesAdd(i: nat, t: nat)
    ensures (i + 1) * t == i * t + t
  {
  }

  /** `args` holds what the losses of the first `k` iterations leave when
      started from `buffer`, `direction` and the sampler at call `calls`. */
  ghost predicate LossStateIs(args: L.FlowArgs, cnfAt: nat -> L.Cnf, dens: L.Densities,
                              noiseAt: nat -> (nat, nat) -> real, buffer: Batch, direction: real, calls: nat, k: nat)
    reads args, args.sampler
  {
    && args.Valid()
    && args.sampler.calls == CallsAfter(calls, B.Times(args.batchSize), k)
    && (args.conditioned, args.direction) ==
         LossStateAfter(args.sampler.draw, args.batchSize, args.xshift, args.xscale, args.yshift, args.yscale,
                        args.integrationTimes, cnfAt, dens, noiseAt, buffer, direction, calls, k)
  }

  /** Iteration `i` of the loop, seen from the state the iterations before
      it left in `args`: the state the first `i + 1` leave. */
  method LossIteration(args: L.FlowArgs, lossChoice: string, cnfAt: nat -> L.Cnf, dens: L.Densities,
                       noiseAt: nat -> (nat, nat) -> real, i: nat,
                       ghost buffer: Batch, ghost direction: real, ghost calls: nat)
    returns (step: Result<(real, real), DriverError>)
    requires LossStateIs(args, cnfAt, dens, noiseAt, buffer, direction, calls, i)
    modifies args, args.sampler
    ensures LossStateIs(args, cnfAt, dens, noiseAt, buffer, direction, calls, i + 1)
  {
    step := TrainStep(args, lossChoice, cnfAt(i), dens, noiseAt(i));
  }

  /** The loop of `experiment`: `train_steps` iterations of schedule, loss,
      objective and moving average. The flow at step `i` (after `i`
      optimiser steps) and the Gaussian noise of step `i` are oracles. */
  method Train(args: L.FlowArgs, trainSteps: int, lr0: real, lossChoice: string,
               cnfAt: nat -> L.Cnf, dens: L.Densities, noiseAt: nat -> (nat, nat) -> real)
    returns (r: Result<(real, real), DriverError>, lr: real, moving: Option<real>,
             ghost started: nat, ghost history: seq<(real, real)>)
    requires args.Valid()
    modifies args, args.sampler
    ensures |history| <= started <= |history| + 1 && started <= B.Times(trainSteps)
    ensures lr == LrAfter(lr0, trainSteps, started)
    ensures moving == MovingOf(history)
    ensures trainSteps <= 0 ==> r == Err(NoSteps) && lr == lr0 && moving.None?
    ensures r.Ok? ==> started == |history| == trainSteps >= 1 && r.value == history[trainSteps - 1]
    ensures r.Ok? ==> lr == lr0 * 0.005
    ensures r.Ok? && trainSteps >= 2 ==> moving.Some? && moving.value >= MinKl
    ensures LossStateIs(args, cnfAt, dens, noiseAt, old(args.conditioned), old(args.direction), old(args.sampler.calls),
                        started)
  {
    lr, moving, started, history := lr0, None, 0, [];
    var last: Option<(real, real)> := None;
    var i := 0;
    while i < trainSteps
      invariant 0 <= i <= B.Times(trainSteps) && |history| == i == started
      invariant lr == LrAfter(lr0, trainSteps, i)
      invariant moving == MovingOf(history)
      invariant last.Some? <==> i > 0
      invariant i > 0 ==> last.value == history[i - 1]
      invariant LossStateIs(args, cnfAt, dens, noiseAt, old(args.conditioned), old(args.direction),
                            old(args.sampler.calls), i)
    {
      lr := Schedule(lr, trainSteps, i);
      started := i + 1;
      var step := LossIteration(args, lossChoice, cnfAt, dens, noiseAt, i,
                                old(args.conditioned), old(args.direction), old(args.sampler.calls));
      if step.Err? {
        return step, lr, moving, started, history;
      }
      var (f, rk) := step.value;
      moving := Some(MovingUpdate(moving, f, rk));
      ghost var before := history;
      history := history + [(f, rk)];
      assert history[..|history| - 1] == before;
      last := Some((f, rk));
      i := i + 1;
    }
    if last.None? {
      return Err(NoSteps), lr, moving, started, history;
    }
    r := Ok(last.value);
    FinalLr(lr0, trainSteps);
    if trainSteps >= 2 {
      MovingFloor(history);
    }
  }
}
