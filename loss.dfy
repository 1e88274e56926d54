/** The loss of flow.py: standardisation of the batch, the two passes through
    the continuous normalising flow, and the accounting of the reverse and
    forward KL estimates; also the routing closures of `get_transforms` and
    the solver settings of `create_cnf`. The flow itself, the densities of
    the graphical model and the Gaussian noise are oracles. */
module Loss {
  import opened Common
  import opened Batches

  datatype LossError =
    | BatchFailed      // create_batch could not stack the draws
    | ShapeMismatch    // a batch does not match the statistics or the condition buffer
    | BroadcastFailed  // two per-sample vectors of incompatible lengths
    | EmptyMean        // torch.mean of an empty vector
    | AssertionFailed  // a density of the forward pass has the wrong length
    | IndexError       // the logging after a pass reads a regularisation entry that is not there

  // ---------------------------------------------------------------- standardisation

  predicate NonZero(scale: Vector)
  {
    forall c :: 0 <= c < |scale| ==> scale[c] != 0.0
  }

  /** `(x - shift) / scale`, entry by entry. */
  function Standardize(v: Vector, shift: Vector, scale: Vector): (r: Vector)
    requires |v| == |shift| == |scale| && NonZero(scale)
    ensures |r| == |v|
  {
    seq(|v|, c requires 0 <= c < |v| => (v[c] - shift[c]) / scale[c])
  }

  /** `z * scale + shift`, entry by entry. */
  function Destandardize(v: Vector, shift: Vector, scale: Vector): (r: Vector)
    requires |v| == |shift| == |scale|
    ensures |r| == |v|
  {
    seq(|v|, c requires 0 <= c < |v| => v[c] * scale[c] + shift[c])
  }

  /** De-standardising undoes standardising ... */
  lemma DestandardizeStandardize(v: Vector, shift: Vector, scale: Vector)
    requires |v| == |shift| == |scale| && NonZero(scale)
    ensures Destandardize(Standardize(v, shift, scale), shift, scale) == v
  {
    var w := Destandardize(Standardize(v, shift, scale), shift, scale);
    forall c | 0 <= c < |v| ensures w[c] == v[c] {
      assert w[c] == (v[c] - shift[c]) / scale[c] * scale[c] + shift[c];
    }
  }

  /** ... and standardising undoes de-standardising. */
  lemma StandardizeDestandardize(v: Vector, shift: Vector, scale: Vector)
    requires |v| == |shift| == |scale| && NonZero(scale)
    ensures Standardize(Destandardize(v, shift, scale), shift, scale) == v
  {
    var w := Standardize(Destandardize(v, shift, scale), shift, scale);
    forall c | 0 <= c < |v| ensures w[c] == v[c] {
      assert w[c] == (v[c] * scale[c] + shift[c] - shift[c]) / scale[c];
    }
  }

  /** Every row of `b` broadcasts entry by entry against the statistics. */
  predicate Conforms(b: Batch, shift: Vector, scale: Vector)
  {
    |shift| == |scale| && RowsOfWidth(b, |shift|)
  }

  function StandardizeBatch(b: Batch, shift: Vector, scale: Vector): (r: Batch)
    requires Conforms(b, shift, scale) && NonZero(scale)
    ensures |r| == |b| && RowsOfWidth(r, |shift|)
  {
    seq(|b|, i requires 0 <= i < |b| => Standardize(b[i], shift, scale))
  }

  function DestandardizeBatch(b: Batch, shift: Vector, scale: Vector): (r: Batch)
    requires Conforms(b, shift, scale)
    ensures |r| == |b| && RowsOfWidth(r, |shift|)
  {
    seq(|b|, i requires 0 <= i < |b| => Destandardize(b[i], shift, scale))
  }

  lemma BatchRoundTrip(b: Batch, shift: Vector, scale: Vector)
    requires Conforms(b, shift, scale) && NonZero(scale)
    ensures DestandardizeBatch(StandardizeBatch(b, shift, scale), shift, scale) == b
  {
    var w := DestandardizeBatch(StandardizeBatch(b, shift, scale), shift, scale);
    forall i | 0 <= i < |b| ensures w[i] == b[i] {
      DestandardizeStandardize(b[i], shift, scale);
    }
  }

  /** `logp_xscale = -sum(log(xscale))`: the log-determinant of the
      standardisation, with `log` an oracle. */
  function LogScaleTerm(log: real -> real, scale: Vector): real
  {
    -Sum(seq(|scale|, c requires 0 <= c < |scale| => log(scale[c])))
  }

  /** The term is additive over the dimensions of the scale vector. */
  lemma LogScaleTermAppend(log: real -> real, scale: Vector, s: real)
    ensures LogScaleTerm(log, scale + [s]) == LogScaleTerm(log, scale) - log(s)
  {
    var all := seq(|scale + [s]|, c requires 0 <= c < |scale + [s]| => log((scale + [s])[c]));
    assert all[..|scale|] == seq(|scale|, c requires 0 <= c < |scale| => log(scale[c]));
  }

  // ---------------------------------------------------------------- broadcasting

  /** The length two one-dimensional tensors broadcast to, if any. */
  function BroadcastLen(m: nat, n: nat): (r: Option<nat>)
    ensures r.Some? <==> m == n || m == 1 || n == 1
    ensures r.Some? ==> r.value == (if m == 1 then n else m)
  {
    if m == n then Some(m) else if m == 1 then Some(n) else if n == 1 then Some(m) else None
  }

  /** A length-one vector stretched to length `n`; any other vector as is. */
  function Expand(a: seq<real>, n: nat): (r: seq<real>)
    requires |a| == n || |a| == 1
    ensures |r| == n
    ensures forall i :: 0 <= i < n ==> r[i] == (if |a| == n then a[i] else a[0])
  {
    if |a| == n then a else seq(n, _ => a[0])
  }

  /** `a + b` and `a - b` with broadcasting. */
  function BAdd(a: seq<real>, b: seq<real>): (r: Option<seq<real>>)
  {
    match BroadcastLen(|a|, |b|)
    case None => None
    case Some(n) => Some(Plus(Expand(a, n), Expand(b, n)))
  }

  function BSub(a: seq<real>, b: seq<real>): (r: Option<seq<real>>)
  {
    match BroadcastLen(|a|, |b|)
    case None => None
    case Some(n) => Some(Minus(Expand(a, n), Expand(b, n)))
  }

  /** Equally long vectors add and subtract entry by entry. */
  lemma BroadcastSameLength(a: seq<real>, b: seq<real>)
    requires |a| == |b|
    ensures BAdd(a, b) == Some(Plus(a, b)) && BSub(a, b) == Some(Minus(a, b))
  {
  }

  // ---------------------------------------------------------------- the flow as an oracle

  /** One call of the flow: input, optional initial log-density, optional
      integration times, direction. */
  datatype FlowCall = FlowCall(input: Batch, logp: Option<seq<real>>, times: Option<seq<real>>, reverse: bool)

  /** What one pass yields: the last state, the last log-density change, the
      regularisation states and the number of function evaluations. */
  datatype Pass = Pass(z: Batch, deltaLogp: seq<real>, reg: seq<seq<real>>, numEvals: nat)

  /** The flow reads the condition buffer of its dynamics, its second argument. */
  type Cnf = (FlowCall, Batch) -> Pass

  /** The graphical model's densities on batches, the standard normal
      log-density of one entry, and the natural logarithm. */
  datatype Densities = Densities(logPrior: Batch -> seq<real>, logLikelihood: (Batch, Batch) -> seq<real>,
                                 logNormal: real -> real, log: real -> real)

  datatype FlowResult = FlowResult(forwardKl: real, reverseKl: real,
                                   forwardReg: seq<seq<real>>, reverseReg: seq<seq<real>>,
                                   forwardNumEvals: nat, reverseNumEvals: nat)

  /** `reg[j][1]`, if the states reach that far. */
  function RegAngle(reg: seq<seq<real>>, j: nat): (r: Option<real>)
    ensures r.Some? <==> j < |reg| && |reg[j]| >= 2
    ensures r.Some? ==> r.value == reg[j][1]
  {
    if j < |reg| && |reg[j]| >= 2 then Some(reg[j][1]) else None
  }

  /** After each pass, exactly two regularisation states are logged by
      reading `reg[0][1]` and `reg[1][1]`, which raises when either state is
      shorter than two. */
  predicate LoggingFails(reg: seq<seq<real>>)
  {
    |reg| == 2 && (RegAngle(reg, 0).None? || RegAngle(reg, 1).None?)
  }

  /** `Normal(0, 1).log_prob(b).sum(dim=1)`. */
  function RowLogDensity(logNormal: real -> real, b: Batch): (r: seq<real>)
    ensures |r| == |b|
  {
    seq(|b|, i requires 0 <= i < |b| => Sum(seq(|b[i]|, c requires 0 <= c < |b[i]| => logNormal(b[i][c]))))
  }

  /** `Normal(0, 1).sample((rows, cols))`, entry `(i, c)` being `noise(i, c)`. */
  function NoiseBatch(noise: (nat, nat) -> real, rows: nat, cols: nat): (r: Batch)
    ensures |r| == rows && RowsOfWidth(r, cols)
  {
    seq(rows, i requires 0 <= i < rows => seq(cols, c requires 0 <= c < cols => noise(i, c)))
  }

  function Zeros(n: nat): (r: seq<real>)
    ensures |r| == n && forall i :: 0 <= i < n ==> r[i] == 0.0
  {
    seq(n, _ => 0.0)
  }

  // ---------------------------------------------------------------- the two KL estimates

  /** Per-sample reverse terms `Q - (PI + LAMBDA)` with `Q = delta_log_q +
      logp_xscale` and the densities at the de-standardised `z`. */
  function ReverseTerms(dens: Densities, y: Batch, xshift: Vector, xscale: Vector, logpXscale: real, rev: Pass)
    : (r: Result<seq<real>, LossError>)
  {
    if !Conforms(rev.z, xshift, xscale) then Err(ShapeMismatch)
    else
      var x := DestandardizeBatch(rev.z, xshift, xscale);
      var q := AddConst(rev.deltaLogp, logpXscale);
      match BAdd(dens.logPrior(x), dens.logLikelihood(x, y))
      case None => Err(BroadcastFailed)
      case Some(target) =>
        match BSub(q, target)
        case None => Err(BroadcastFailed)
        case Some(t) => Ok(t)
  }

  /** Per-sample forward terms `(PI_ + LAMBDA_) - Q_` with `Q_ = P__ -
      delta_log_p_ + logp_xscale` and the densities at the raw `x`, whose
      lengths are asserted to be `batch_size`. */
  function ForwardTerms(dens: Densities, x: Batch, y: Batch, batchSize: int, logpXscale: real, fwd: Pass)
    : (r: Result<seq<real>, LossError>)
  {
    match BSub(RowLogDensity(dens.logNormal, fwd.z), fwd.deltaLogp)
    case None => Err(BroadcastFailed)
    case Some(d) =>
      var q := AddConst(d, logpXscale);
      var pi := dens.logPrior(x);
      var lambda := dens.logLikelihood(x, y);
      if |pi| != batchSize || |lambda| != batchSize then Err(AssertionFailed)
      else
        match BAdd(pi, lambda)
        case None => Err(BroadcastFailed)
        case Some(target) =>
          match BSub(target, q)
          case None => Err(BroadcastFailed)
          case Some(t) => Ok(t)
  }

  /** What `compute_loss` does from the given state: its result, the batch it
      wrote into the condition buffer (if it got that far), and the values it
      gave `args.direction`, in order. */
  datatype Outcome = Outcome(result: Result<FlowResult, LossError>, wrote: Option<Batch>, directions: seq<real>)

  /** The passes, once the condition buffer holds `y_`. */
  function Passes(cnf: Cnf, dens: Densities, x: Batch, y: Batch, y_ : Batch, xshift: Vector, xscale: Vector,
                  batchSize: int, times: seq<real>, noise: (nat, nat) -> real): (o: Outcome)
    requires Conforms(x, xshift, xscale) && NonZero(xscale)
  {
    var logpXscale := LogScaleTerm(dens.log, xscale);
    var x0 := NoiseBatch(noise, |x|, |xshift|);
    var rev := cnf(FlowCall(x0, Some(RowLogDensity(dens.logNormal, x0)), Some(times), false), y_);
    if LoggingFails(rev.reg) then Outcome(Err(IndexError), Some(y_), [1.0])
    else match ReverseTerms(dens, y, xshift, xscale, logpXscale, rev)
    case Err(e) => Outcome(Err(e), Some(y_), [1.0])
    case Ok(rterms) =>
      var fwd := cnf(FlowCall(StandardizeBatch(x, xshift, xscale), Some(Zeros(|x|)), None, true), y_);
      if LoggingFails(fwd.reg) then Outcome(Err(IndexError), Some(y_), [1.0, -1.0])
      else match ForwardTerms(dens, x, y, batchSize, logpXscale, fwd)
      case Err(e) => Outcome(Err(e), Some(y_), [1.0, -1.0])
      case Ok(fterms) =>
        if |fterms| == 0 || |rterms| == 0 then Outcome(Err(EmptyMean), Some(y_), [1.0, -1.0])
        else Outcome(Ok(FlowResult(Mean(fterms), Mean(rterms), fwd.reg, rev.reg, fwd.numEvals, rev.numEvals)),
                     Some(y_), [1.0, -1.0])
  }

  /** Two batches of the same shape, so that one can be written over the other. */
  predicate SameShape(a: Batch, b: Batch)
  {
    |a| == |b| && forall i :: 0 <= i < |a| ==> |a[i]| == |b[i]|
  }

  /** `compute_loss(args)` with the sampler at call `first` and the condition
      buffer holding `buffer`. */
  function LossSpec(draw: nat -> (Vector, Vector), first: nat, batchSize: int,
                    xshift: Vector, xscale: Vector, yshift: Vector, yscale: Vector, buffer: Batch,
                    times: seq<real>, cnf: Cnf, dens: Densities, noise: (nat, nat) -> real): (o: Outcome)
    requires NonZero(xscale) && NonZero(yscale)
  {
    match CreateBatchSpec(draw, first, batchSize, 1)
    case Err(_) => Outcome(Err(BatchFailed), None, [])
    case Ok((x, y)) =>
      if !Conforms(x, xshift, xscale) || !Conforms(y, yshift, yscale) then Outcome(Err(ShapeMismatch), None, [])
      else
        var y_ := StandardizeBatch(y, yshift, yscale);
        if !SameShape(y_, buffer) then Outcome(Err(ShapeMismatch), None, [])
        else Passes(cnf, dens, x, y, y_, xshift, xscale, batchSize, times, noise)
  }

  /** The condition buffer and direction once `compute_loss` has ended with
      outcome `o`: the rows it wrote, if any, and the last direction it set. */
  function StateAfter(o: Outcome, buffer: Batch, direction: real): (Batch, real)
  {
    (if o.wrote.Some? then o.wrote.value else buffer,
     if o.directions == [] then direction else o.directions[|o.directions| - 1])
  }

  /** Both passes see the standardised condition batch, written once; a
      finished computation has set the direction to 1.0 and then to -1.0. */
  lemma BufferWrittenOnce(draw: nat -> (Vector, Vector), first: nat, batchSize: int,
                          xshift: Vector, xscale: Vector, yshift: Vector, yscale: Vector, buffer: Batch,
                          times: seq<real>, cnf: Cnf, dens: Densities, noise: (nat, nat) -> real)
    requires NonZero(xscale) && NonZero(yscale)
    requires LossSpec(draw, first, batchSize, xshift, xscale, yshift, yscale, buffer, times, cnf, dens, noise).result.Ok?
    ensures var o := LossSpec(draw, first, batchSize, xshift, xscale, yshift, yscale, buffer, times, cnf, dens, noise);
            var (x, y) := CreateBatchSpec(draw, first, batchSize, 1).value;
            && Conforms(y, yshift, yscale)
            && o.wrote == Some(StandardizeBatch(y, yshift, yscale))
            && o.directions == [1.0, -1.0]
  {
  }

  /** A loss that succeeds survived the logging of both passes: when a pass
      has exactly two regularisation states, each has at least two entries. */
  lemma SuccessfulLossLoggedItsStates(draw: nat -> (Vector, Vector), first: nat, batchSize: int,
                                      xshift: Vector, xscale: Vector, yshift: Vector, yscale: Vector, buffer: Batch,
                                      times: seq<real>, cnf: Cnf, dens: Densities, noise: (nat, nat) -> real)
    requires NonZero(xscale) && NonZero(yscale)
    requires LossSpec(draw, first, batchSize, xshift, xscale, yshift, yscale, buffer, times, cnf, dens, noise).result.Ok?
    ensures var v := LossSpec(draw, first, batchSize, xshift, xscale, yshift, yscale, buffer, times, cnf, dens, noise).result.value;
            && (|v.reverseReg| == 2 ==> |v.reverseReg[0]| >= 2 && |v.reverseReg[1]| >= 2)
            && (|v.forwardReg| == 2 ==> |v.forwardReg[0]| >= 2 && |v.forwardReg[1]| >= 2)
  {
  }

  /** The forward pass fails its assertion exactly when, after a reverse pass
      that succeeded and a broadcastable `Q_`, a density has a length other
      than `batch_size`. */
  lemma ForwardAssertionIff(dens: Densities, x: Batch, y: Batch, batchSize: int, logpXscale: real, fwd: Pass)
    ensures ForwardTerms(dens, x, y, batchSize, logpXscale, fwd) == Err(AssertionFailed) <==>
              && BSub(RowLogDensity(dens.logNormal, fwd.z), fwd.deltaLogp).Some?
              && (|dens.logPrior(x)| != batchSize || |dens.logLikelihood(x, y)| != batchSize)
  {
    var pi := dens.logPrior(x);
    var lambda := dens.logLikelihood(x, y);
    if |pi| == batchSize && |lambda| == batchSize {
      BroadcastSameLength(pi, lambda);
    }
  }

  /** With every per-sample vector of the batch length `n > 0`, the reverse
      estimate is the mean log-density change plus the log-scale term minus
      the mean log-prior and log-likelihood at the de-standardised `z`. */
  lemma ReverseKlDecomposes(dens: Densities, y: Batch, xshift: Vector, xscale: Vector, logpXscale: real, rev: Pass)
    requires Conforms(rev.z, xshift, xscale)
    requires var x := DestandardizeBatch(rev.z, xshift, xscale);
             |rev.deltaLogp| == |dens.logPrior(x)| == |dens.logLikelihood(x, y)| > 0
    ensures var x := DestandardizeBatch(rev.z, xshift, xscale);
            var r := ReverseTerms(dens, y, xshift, xscale, logpXscale, rev);
            r.Ok? && |r.value| == |rev.deltaLogp| &&
            Mean(r.value) == Mean(rev.deltaLogp) + logpXscale - Mean(dens.logPrior(x)) - Mean(dens.logLikelihood(x, y))
  {
    var x := DestandardizeBatch(rev.z, xshift, xscale);
    var pi, lambda := dens.logPrior(x), dens.logLikelihood(x, y);
    var q := AddConst(rev.deltaLogp, logpXscale);
    BroadcastSameLength(pi, lambda);
    BroadcastSameLength(q, Plus(pi, lambda));
    MeanMinus(q, Plus(pi, lambda));
    MeanPlus(pi, lambda);
    MeanAddConst(rev.deltaLogp, logpXscale);
  }

  /** With every per-sample vector of length `batch_size > 0`, the forward
      estimate is the mean log-prior and log-likelihood at `x` minus the mean
      Gaussian log-density of `z_`, plus the mean log-density change, minus
      the log-scale term. */
  lemma ForwardKlDecomposes(dens: Densities, x: Batch, y: Batch, batchSize: int, logpXscale: real, fwd: Pass)
    requires batchSize > 0 && |fwd.z| == |fwd.deltaLogp| == batchSize
    requires |dens.logPrior(x)| == |dens.logLikelihood(x, y)| == batchSize
    ensures var r := ForwardTerms(dens, x, y, batchSize, logpXscale, fwd);
            var p := RowLogDensity(dens.logNormal, fwd.z);
            r.Ok? && |r.value| == batchSize &&
            Mean(r.value) == Mean(dens.logPrior(x)) + Mean(dens.logLikelihood(x, y))
                             - Mean(p) + Mean(fwd.deltaLogp) - logpXscale
  {
    var pi, lambda := dens.logPrior(x), dens.logLikelihood(x, y);
    var p := RowLogDensity(dens.logNormal, fwd.z);
    BroadcastSameLength(p, fwd.deltaLogp);
    var q := AddConst(Minus(p, fwd.deltaLogp), logpXscale);
    BroadcastSameLength(pi, lambda);
    BroadcastSameLength(Plus(pi, lambda), q);
    MeanMinus(Plus(pi, lambda), q);
    MeanPlus(pi, lambda);
    MeanAddConst(Minus(p, fwd.deltaLogp), logpXscale);
    MeanMinus(p, fwd.deltaLogp);
  }

  // ---------------------------------------------------------------- compute_loss

  /** The fields of the `args` namespace that `compute_loss` reads and writes. */
  class FlowArgs {
    const sampler: Sampler
    const batchSize: int
    const xshift: Vector
    const xscale: Vector
    const yshift: Vector
    const yscale: Vector
    const integrationTimes: seq<real>
    /** `args.direction`, read by code outside this model. */
    var direction: real
    /** `args.diffeq.conditioned`, the condition buffer of the dynamics. */
    var conditioned: Batch

    predicate Valid()
    {
      NonZero(xscale) && NonZero(yscale)
    }

    constructor (sampler: Sampler, batchSize: int, xshift: Vector, xscale: Vector, yshift: Vector, yscale: Vector,
                 integrationTimes: seq<real>, conditioned: Batch)
      requires NonZero(xscale) && NonZero(yscale)
      ensures Valid()
      ensures this.sampler == sampler && this.batchSize == batchSize
      ensures this.xshift == xshift && this.xscale == xscale && this.yshift == yshift && this.yscale == yscale
      ensures this.integrationTimes == integrationTimes && this.conditioned == conditioned
    {
      this.sampler, this.batchSize := sampler, batchSize;
      this.xshift, this.xscale, this.yshift, this.yscale := xshift, xscale, yshift, yscale;
      this.integrationTimes, this.conditioned := integrationTimes, conditioned;
      direction := 0.0;
    }

    /** `compute_loss(args, log_scalar)`: draws `batch_size` samples,
        standardises them, writes the condition buffer in place, runs the
        reverse pass with direction 1.0 and the forward pass with direction
        -1.0, and returns the two KL estimates. */
    method ComputeLoss(cnf: Cnf, dens: Densities, noise: (nat, nat) -> real) returns (r: Result<FlowResult, LossError>)
      requires Valid()
      modifies this`direction, this`conditioned, sampler`calls
      ensures sampler.calls == old(sampler.calls) + Times(batchSize)
      ensures var o := LossSpec(sampler.draw, old(sampler.calls), batchSize, xshift, xscale, yshift, yscale,
                                old(conditioned), integrationTimes, cnf, dens, noise);
              && r == o.result
              && (conditioned, direction) == StateAfter(o, old(conditioned), old(direction))
    {
      var batch := CreateBatch(sampler, batchSize, 1);
      if batch.Err? {
        return Err(BatchFailed);
      }
      var (x, y) := batch.value;
      if !Conforms(x, xshift, xscale) || !Conforms(y, yshift, yscale) {
        return Err(ShapeMismatch);
      }
      var x_ := StandardizeBatch(x, xshift, xscale);
      var logpXscale := LogScaleTerm(dens.log, xscale);
      var y_ := StandardizeBatch(y, yshift, yscale);
      if !SameShape(y_, conditioned) {
        return Err(ShapeMismatch);
      }
      conditioned := y_;

      var x0 := NoiseBatch(noise, |x|, |xshift|);
      direction := 1.0;
      var rev := cnf(FlowCall(x0, Some(RowLogDensity(dens.logNormal, x0)), Some(integrationTimes), false), conditioned);
      if LoggingFails(rev.reg) {
        return Err(IndexError);
      }
      var rterms := ReverseTerms(dens, y, xshift, xscale, logpXscale, rev);
      if rterms.Err? {
        return Err(rterms.error);
      }

      direction := -1.0;
      var fwd := cnf(FlowCall(x_, Some(Zeros(|x|)), None, true), conditioned);
      if LoggingFails(fwd.reg) {
        return Err(IndexError);
      }
      var fterms := ForwardTerms(dens, x, y, batchSize, logpXscale, fwd);
      if fterms.Err? {
        return Err(fterms.error);
      }
      if |fterms.value| == 0 || |rterms.value| == 0 {
        return Err(EmptyMean);
      }
      r := Ok(FlowResult(Mean(fterms.value), Mean(rterms.value), fwd.reg, rev.reg, fwd.numEvals, rev.numEvals));
    }
  }

  // ---------------------------------------------------------------- get_transforms

  /** `sample_fn(z, logpz)`: the model called in reverse, with `logpz`
      forwarded only when given. */
  function SampleCall(z: Batch, logpz: Option<seq<real>>): (c: FlowCall)
    ensures c.reverse && c.input == z && c.logp == logpz && c.times.None?
  {
    FlowCall(z, logpz, None, true)
  }

  /** `density_fn(x, logpx)`: the model called forwards. */
  function DensityCall(x: Batch, logpx: Option<seq<real>>): (c: FlowCall)
    ensures !c.reverse && c.input == x && c.logp == logpx && c.times.None?
  {
    FlowCall(x, logpx, None, false)
  }

  /** The two closures differ in the direction only. */
  lemma TransformsDifferInDirectionOnly(v: Batch, logp: Option<seq<real>>)
    ensures SampleCall(v, logp) != DensityCall(v, logp)
    ensures SampleCall(v, logp).(reverse := false) == DensityCall(v, logp)
  {
  }

  // ---------------------------------------------------------------- create_cnf

  /** The settings of a `layers.CNF` module that flow.py touches. */
  datatype CnfSettings = CnfSettings(solver: string, atol: real, rtol: real,
                                     testSolver: string, testAtol: real, testRtol: real,
                                     t: real, trainT: bool, regularized: bool)

  /** The settings of a `layers.ODEfunc` module that flow.py touches. */
  datatype OdeFuncSettings = OdeFuncSettings(divergence: string, residual: bool, rademacher: bool)

  /** A module `model.apply` visits; `_set` acts on each one separately. */
  datatype Module = CnfModule(cnf: CnfSettings) | OdeFuncModule(f: OdeFuncSettings) | OtherModule(name: string)

  const Tol: real := 0.00001

  /** `_set(module)` of `set_cnf_options`. */
  function SetOptions(m: Module): (r: Module)
  {
    match m
    case CnfModule(c) =>
      CnfModule(c.(solver := "dopri5", atol := Tol, rtol := Tol, testSolver := "dopri5", testAtol := Tol, testRtol := Tol))
    case OdeFuncModule(f) => OdeFuncModule(f.(rademacher := false, residual := false))
    case OtherModule(_) => m
  }

  /** `set_cnf_options(model)`: `_set` applied to every module. */
  function SetCnfOptions(ms: seq<Module>): (r: seq<Module>)
    ensures |r| == |ms|
  {
    seq(|ms|, i requires 0 <= i < |ms| => SetOptions(ms[i]))
  }

  /** Afterwards every flow solves with dopri5 at tolerance 1e-5 in training
      and test alike, every ODE function is neither Rademacher nor residual,
      and every other module and every other setting is as before. */
  lemma SetCnfOptionsEffect(ms: seq<Module>, i: nat)
    requires i < |ms|
    ensures var m, r := ms[i], SetCnfOptions(ms)[i];
            && (m.CnfModule? <==> r.CnfModule?) && (m.OdeFuncModule? <==> r.OdeFuncModule?)
            && (r.CnfModule? ==>
                  && r.cnf.solver == r.cnf.testSolver == "dopri5"
                  && r.cnf.atol == r.cnf.rtol == r.cnf.testAtol == r.cnf.testRtol == Tol
                  && r.cnf.t == m.cnf.t && r.cnf.trainT == m.cnf.trainT
                  && r.cnf.regularized == m.cnf.regularized)
            && (r.OdeFuncModule? ==> !r.f.rademacher && !r.f.residual && r.f.divergence == m.f.divergence)
            && (m.OtherModule? ==> r == m)
  {
  }

  /** Setting the options twice is setting them once. */
  lemma SetCnfOptionsIdempotent(ms: seq<Module>)
    ensures SetCnfOptions(SetCnfOptions(ms)) == SetCnfOptions(ms)
  {
    var once := SetCnfOptions(ms);
    forall i | 0 <= i < |ms| ensures SetCnfOptions(once)[i] == once[i] {
      match ms[i]
      case CnfModule(c) =>
      case OdeFuncModule(f) =>
      case OtherModule(_) =>
    }
  }

  /** `create_cnf(diffeq, regularization_fns)`: the flow module, then its ODE
      function, then the modules of the dynamics; the library's own default
      tolerances `libCnf` are overwritten by `set_cnf_options`. */
  function CreateCnf(libCnf: CnfSettings, diffeqModules: seq<Module>, regularized: bool): (r: seq<Module>)
  {
    SetCnfOptions([CnfModule(libCnf.(solver := "dopri5", t := 1.0, trainT := true, regularized := regularized)),
                   OdeFuncModule(OdeFuncSettings("approximate", false, false))] + diffeqModules)
  }

  /** The flow `create_cnf` builds does not depend on the library's defaults:
      it integrates over `[0, 1]` with a trainable end time, dopri5, tolerance
      1e-5, the approximate divergence, neither Rademacher noise nor a
      residual ODE function; and a second `set_cnf_options` changes nothing. */
  lemma CreateCnfSettings(lib1: CnfSettings, lib2: CnfSettings, diffeqModules: seq<Module>, regularized: bool)
    ensures var r := CreateCnf(lib1, diffeqModules, regularized);
            && |r| == |diffeqModules| + 2
            && r[..2] == CreateCnf(lib2, diffeqModules, regularized)[..2]
            && r[0] == CnfModule(CnfSettings("dopri5", Tol, Tol, "dopri5", Tol, Tol, 1.0, true, regularized))
            && r[1] == OdeFuncModule(OdeFuncSettings("approximate", false, false))
            && SetCnfOptions(r) == r
  {
    SetCnfOptionsIdempotent([CnfModule(lib1.(solver := "dopri5", t := 1.0, trainT := true, regularized := regularized)),
                             OdeFuncModule(OdeFuncSettings("approximate", false, false))] + diffeqModules);
  }
}
