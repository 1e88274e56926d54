/** Shared value types: dense vectors and matrices over `real`, batches of rows,
    the Option/Result wrappers used for the source's exceptions, and batch sums
    and means with the linearity facts the loss accounting relies on. */
module Common {

  type Vector = seq<real>
  /** A matrix is a sequence of rows. */
  type Matrix = seq<seq<real>>
  /** A batch holds one row per sample. */
  type Batch = seq<Vector>

  datatype Option<+T> = None | Some(value: T)

  datatype Result<+T, +E> = Ok(value: T) | Err(error: E)

  /** Every row of `m` has `cols` entries and there are `rows` of them. */
  predicate IsMatrix(m: Matrix, rows: nat, cols: nat)
  {
    |m| == rows && forall i :: 0 <= i < |m| ==> |m[i]| == cols
  }

  /** Every row of the batch has `width` entries. */
  predicate RowsOfWidth(b: Batch, width: nat)
  {
    forall r :: 0 <= r < |b| ==> |b[r]| == width
  }

  function Sum(s: seq<real>): real
  {
    if s == [] then 0.0 else Sum(s[..|s| - 1]) + s[|s| - 1]
  }

  /** torch.mean over a non-empty batch. */
  function Mean(s: seq<real>): real
    requires |s| > 0
  {
    Sum(s) / (|s| as real)
  }

  /** Pointwise sum, difference and shift of two equally long sequences. */
  function Plus(a: seq<real>, b: seq<real>): (r: seq<real>)
    requires |a| == |b|
    ensures |r| == |a|
  {
    seq(|a|, i requires 0 <= i < |a| => a[i] + b[i])
  }

  function Minus(a: seq<real>, b: seq<real>): (r: seq<real>)
    requires |a| == |b|
    ensures |r| == |a|
  {
    seq(|a|, i requires 0 <= i < |a| => a[i] - b[i])
  }

  function AddConst(a: seq<real>, c: real): (r: seq<real>)
    ensures |r| == |a|
  {
    seq(|a|, i requires 0 <= i < |a| => a[i] + c)
  }

  /** The sum of a pointwise sum is the sum of the sums. */
  lemma {:induction false} SumPlus(a: seq<real>, b: seq<real>)
    requires |a| == |b|
    ensures Sum(Plus(a, b)) == Sum(a) + Sum(b)
  {
    if |a| > 0 {
      var n := |a| - 1;
      assert Plus(a, b)[..n] == Plus(a[..n], b[..n]);
      SumPlus(a[..n], b[..n]);
    }
  }

  lemma {:induction false} SumMinus(a: seq<real>, b: seq<real>)
    requires |a| == |b|
    ensures Sum(Minus(a, b)) == Sum(a) - Sum(b)
  {
    if |a| > 0 {
      var n := |a| - 1;
      assert Minus(a, b)[..n] == Minus(a[..n], b[..n]);
      SumMinus(a[..n], b[..n]);
    }
  }

  /** Shifting every sample by `c` shifts the sum by `|a| * c`. */
  lemma {:induction false} SumAddConst(a: seq<real>, c: real)
    ensures Sum(AddConst(a, c)) == Sum(a) + (|a| as real) * c
  {
    if |a| > 0 {
      var n := |a| - 1;
      assert AddConst(a, c)[..n] == AddConst(a[..n], c);
      SumAddConst(a[..n], c);
    }
  }

  /** The batch mean is linear: it distributes over +, - and constant shifts. */
  lemma MeanPlus(a: seq<real>, b: seq<real>)
    requires |a| == |b| > 0
    ensures Mean(Plus(a, b)) == Mean(a) + Mean(b)
  {
    SumPlus(a, b);
  }

  lemma MeanMinus(a: seq<real>, b: seq<real>)
    requires |a| == |b| > 0
    ensures Mean(Minus(a, b)) == Mean(a) - Mean(b)
  {
    SumMinus(a, b);
  }

  lemma MeanAddConst(a: seq<real>, c: real)
    requires |a| > 0
    ensures Mean(AddConst(a, c)) == Mean(a) + c
  {
    SumAddConst(a, c);
    var n := |a| as real;
    assert (Sum(a) + n * c) / n == Sum(a) / n + c;
  }

  /** The mean of a batch whose samples all equal `c` is `c`. */
  lemma {:induction false} MeanOfConstant(a: seq<real>, c: real)
    requires |a| > 0
    requires forall i :: 0 <= i < |a| ==> a[i] == c
    ensures Mean(a) == c
  {
    SumOfConstant(a, c);
  }

  lemma {:induction false} SumOfConstant(a: seq<real>, c: real)
    requires forall i :: 0 <= i < |a| ==> a[i] == c
    ensures Sum(a) == (|a| as real) * c
  {
    if |a| > 0 {
      SumOfConstant(a[..|a| - 1], c);
    }
  }
}
