/** `create_batch` of flow.py: draw `minibatch_size` samples from the model's
    sampler, repeat each draw `repeat_samples` times, and stack the rows. The
    sampler is an oracle object that counts its calls. */
module Batches {
  import opened Common

  /** `torch.stack` refuses an empty list and rows of different widths. */
  datatype BatchError = StackError

  /** `gmodel.sample`: call number `n` (counting from zero) returns the pair
      `draw(n)` of a latent and a condition row. */
  class Sampler {
    const draw: nat -> (Vector, Vector)
    var calls: nat

    constructor (draw: nat -> (Vector, Vector))
      ensures this.draw == draw && calls == 0
    {
      this.draw := draw;
      calls := 0;
    }

    method Sample() returns (x: Vector, y: Vector)
      modifies this`calls
      ensures calls == old(calls) + 1
      ensures (x, y) == draw(old(calls))
    {
      x, y := draw(calls).0, draw(calls).1;
      calls := calls + 1;
    }
  }

  /** How many times `range(m)` runs. */
  function Times(m: int): (n: nat)
    ensures m >= 0 ==> n == m
    ensures m < 0 ==> n == 0
  {
    if m < 0 then 0 else m
  }

  /** The first `n` latent rows of a batch whose draws start at call `first`
      and repeat `r` times each. */
  function LatentRows(draw: nat -> (Vector, Vector), first: nat, n: nat, r: nat): (b: Batch)
    requires r > 0
    ensures |b| == n
  {
    seq(n, j requires 0 <= j < n => draw(first + j / r).0)
  }

  function ConditionRows(draw: nat -> (Vector, Vector), first: nat, n: nat, r: nat): (b: Batch)
    requires r > 0
    ensures |b| == n
  {
    seq(n, j requires 0 <= j < n => draw(first + j / r).1)
  }

  /** `torch.stack` succeeds on a non-empty list of rows of one width. */
  predicate Stackable(b: Batch)
  {
    |b| > 0 && forall j :: 0 <= j < |b| ==> |b[j]| == |b[0]|
  }

  /** The batch `create_batch(sample, m, r)` returns when the sampler is at
      call `first`, or the stacking error. The two shape assertions that
      follow the stacking always hold for stacked rows. */
  function CreateBatchSpec(draw: nat -> (Vector, Vector), first: nat, m: int, r: int): Result<(Batch, Batch), BatchError>
  {
    if m <= 0 || r <= 0 then Err(StackError)
    else
      var xs := LatentRows(draw, first, m * r, r);
      var ys := ConditionRows(draw, first, m * r, r);
      if Stackable(xs) && Stackable(ys) then Ok((xs, ys)) else Err(StackError)
  }

  /** Draws `first .. first + m - 1` all have the widths of the first one. */
  predicate DrawsAgree(draw: nat -> (Vector, Vector), first: nat, m: nat)
  {
    forall n :: first <= n < first + m ==>
      |draw(n).0| == |draw(first).0| && |draw(n).1| == |draw(first).1|
  }

  /** Products by a positive factor, by induction on it. */
  lemma {:induction false} MulAtLeast(d: nat, r: int)
    requires d >= 1 && r >= 0
    ensures d * r >= r
  {
    if d > 1 {
      MulAtLeast(d - 1, r);
      assert d * r == (d - 1) * r + r;
    }
  }

  lemma MulSign(d: int, r: int)
    requires r >= 0
    ensures d > 0 ==> d * r >= r
    ensures d < 0 ==> d * r <= -r
  {
    if d > 0 {
      MulAtLeast(d, r);
    } else if d < 0 {
      MulAtLeast(-d, r);
      assert d * r == -((-d) * r);
    }
  }

  /** Row `k * r + i` is the `i`-th repetition of draw `k`. */
  lemma DivRange(k: nat, i: nat, r: nat)
    requires i < r
    ensures (k * r + i) / r == k
  {
    var q := (k * r + i) / r;
    var s := (k * r + i) % r;
    assert (q - k) * r == i - s;
    MulSign(q - k, r);
  }

  /** A row before `m * r` comes from one of the first `m` draws. */
  lemma DivBelow(j: nat, m: nat, r: nat)
    requires r > 0 && j < m * r
    ensures j / r < m
  {
    var q := j / r;
    assert q * r <= j;
    MulSign(m - q, r);
    assert (m - q) * r == m * r - q * r;
  }

  /** Repetition `i` of draw `k < m` lies before row `m * r`. */
  lemma RowBelow(k: nat, i: nat, m: int, r: nat)
    requires k < m && i < r
    ensures k * r + i < m * r
  {
    MulSign(m - k, r);
    assert (m - k) * r == m * r - k * r;
  }

  /** The `i`-th repetition of draw `k` sits at row `k * r + i` of both
      batches, so `xs[j]` and `ys[j]` always come from the same draw. */
  lemma RowOfRepetition(draw: nat -> (Vector, Vector), first: nat, m: int, r: int, k: nat, i: nat)
    requires CreateBatchSpec(draw, first, m, r).Ok?
    requires k < m && i < r
    ensures var (xs, ys) := CreateBatchSpec(draw, first, m, r).value;
            k * r + i < |xs| == |ys| &&
            xs[k * r + i] == draw(first + k).0 && ys[k * r + i] == draw(first + k).1
  {
    DivRange(k, i, r);
    RowBelow(k, i, m, r);
  }

  /** The stacked batches have `m * r` rows of the widths of the first draw:
      the two assertions after the stacking hold. */
  lemma BatchShape(draw: nat -> (Vector, Vector), first: nat, m: int, r: int)
    requires CreateBatchSpec(draw, first, m, r).Ok?
    ensures var (xs, ys) := CreateBatchSpec(draw, first, m, r).value;
            && |xs| == |ys| == m * r
            && RowsOfWidth(xs, |draw(first).0|) && RowsOfWidth(ys, |draw(first).1|)
  {
    var (xs, ys) := CreateBatchSpec(draw, first, m, r).value;
    DivRange(0, 0, r);
    assert xs[0] == draw(first).0 && ys[0] == draw(first).1;
  }

  /** Stacked rows of one width mean draws of one width. */
  lemma StackableDrawsAgree(draw: nat -> (Vector, Vector), first: nat, m: nat, r: nat)
    requires r > 0
    requires Stackable(LatentRows(draw, first, m * r, r)) && Stackable(ConditionRows(draw, first, m * r, r))
    ensures DrawsAgree(draw, first, m)
  {
    var xs := LatentRows(draw, first, m * r, r);
    var ys := ConditionRows(draw, first, m * r, r);
    DivRange(0, 0, r);
    forall n | first <= n < first + m
      ensures |draw(n).0| == |draw(first).0| && |draw(n).1| == |draw(first).1|
    {
      var k: nat := n - first;
      DivRange(k, 0, r);
      RowBelow(k, 0, m, r);
      assert xs[k * r] == draw(n).0 && ys[k * r] == draw(n).1;
    }
  }

  /** Draws of one width stack, provided there is at least one row. */
  lemma AgreeingDrawsStack(draw: nat -> (Vector, Vector), first: nat, m: nat, r: nat)
    requires m > 0 && r > 0 && DrawsAgree(draw, first, m)
    ensures Stackable(LatentRows(draw, first, m * r, r)) && Stackable(ConditionRows(draw, first, m * r, r))
  {
    var xs := LatentRows(draw, first, m * r, r);
    var ys := ConditionRows(draw, first, m * r, r);
    RowBelow(0, 0, m, r);
    DivRange(0, 0, r);
    forall j | 0 <= j < |xs|
      ensures |xs[j]| == |xs[0]| && |ys[j]| == |ys[0]|
    {
      DivBelow(j, m, r);
    }
  }

  /** Stacking fails exactly when nothing is drawn, nothing is repeated, or
      two of the `m` draws have different widths. */
  lemma BatchFailsIff(draw: nat -> (Vector, Vector), first: nat, m: int, r: int)
    ensures CreateBatchSpec(draw, first, m, r).Err? <==> m <= 0 || r <= 0 || !DrawsAgree(draw, first, m)
  {
    if m > 0 && r > 0 {
      if Stackable(LatentRows(draw, first, m * r, r)) && Stackable(ConditionRows(draw, first, m * r, r)) {
        StackableDrawsAgree(draw, first, m, r);
      }
      if DrawsAgree(draw, first, m) {
        AgreeingDrawsStack(draw, first, m, r);
      }
    }
  }

  /** Repeats the draw `(x, y)` `r` times onto the rows collected so far. */
  method Repeat(xs: Batch, ys: Batch, x: Vector, y: Vector, r: int) returns (xs': Batch, ys': Batch)
    ensures |xs'| == |xs| + Times(r) && |ys'| == |ys| + Times(r)
    ensures xs' == xs + seq(Times(r), _ => x) && ys' == ys + seq(Times(r), _ => y)
  {
    xs', ys' := xs, ys;
    var i := 0;
    while i < r
      invariant 0 <= i <= Times(r)
      invariant xs' == xs + seq(i, _ => x) && ys' == ys + seq(i, _ => y)
    {
      xs', ys' := xs' + [x], ys' + [y];
      i := i + 1;
    }
  }

  /** `create_batch(sample_fn, minibatch_size, repeat_samples)`: calls the
      sampler exactly `minibatch_size` times (none when it is negative). */
  method CreateBatch(s: Sampler, m: int, r: int) returns (res: Result<(Batch, Batch), BatchError>)
    modifies s`calls
    ensures s.calls == old(s.calls) + Times(m)
    ensures res == CreateBatchSpec(s.draw, old(s.calls), m, r)
  {
    var first := s.calls;
    var xs: Batch := [];
    var ys: Batch := [];
    var k := 0;
    while k < m
      invariant 0 <= k <= Times(m)
      invariant s.calls == first + k
      invariant r > 0 ==> xs == LatentRows(s.draw, first, k * r, r) && ys == ConditionRows(s.draw, first, k * r, r)
      invariant r <= 0 ==> xs == [] && ys == []
    {
      var x, y := s.Sample();
      var xs', ys' := Repeat(xs, ys, x, y, r);
      if r > 0 {
        RepeatedDraw(s.draw, first, k, r, xs, ys, xs', ys');
      }
      xs, ys := xs', ys';
      k := k + 1;
    }
    if m <= 0 || r <= 0 {
      res := Err(StackError);
    } else if Stackable(xs) && Stackable(ys) {
      res := Ok((xs, ys));
    } else {
      res := Err(StackError);
    }
  }

  /** Appending `r` copies of draw `k` to the rows of the first `k` draws gives
      the rows of the first `k + 1` draws. */
  lemma RepeatedDraw(draw: nat -> (Vector, Vector), first: nat, k: nat, r: nat, xs: Batch, ys: Batch, xs': Batch, ys': Batch)
    requires r > 0
    requires xs == LatentRows(draw, first, k * r, r) && ys == ConditionRows(draw, first, k * r, r)
    requires xs' == xs + seq(r, _ => draw(first + k).0) && ys' == ys + seq(r, _ => draw(first + k).1)
    ensures xs' == LatentRows(draw, first, (k + 1) * r, r) && ys' == ConditionRows(draw, first, (k + 1) * r, r)
  {
    var n := (k + 1) * r;
    assert n == k * r + r;
    forall j | 0 <= j < n
      ensures xs'[j] == draw(first + j / r).0 && ys'[j] == draw(first + j / r).1
    {
      if j >= k * r {
        DivRange(k, j - k * r, r);
      }
    }
  }
}
