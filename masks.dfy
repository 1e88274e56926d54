/** Compilation of an adjacency list into the 0/1 weight mask of a sparse layer
    (nets.py, ConcatSquashLinearSparse.__init__ and LinearSparse.__init__).

    `MaskOf` is the mask the construction loop leaves behind, written as a fold
    over the edge list in the loop's own order; `MaskEntry` characterises it
    entry by entry, and `BuildMask` is the loop itself over a two-dimensional
    array. */
module Masks {
  import opened Common
  import opened Adjacency

  /** The indexing `mask[a, b] = 1.0` is only executed for edges with
      `b < dimIn`, and for those it needs `a < dimOut`. */
  predicate Indexable(adj: AdjacencyList, dimOut: nat, dimIn: nat)
  {
    forall e :: e in adj && e.dst < dimIn ==> e.src < dimOut
  }

  function Zeros(rows: nat, cols: nat): (m: Matrix)
    ensures IsMatrix(m, rows, cols)
  {
    seq(rows, _ => seq(cols, _ => 0.0))
  }

  /** The mask after the loop has visited every edge of `adj`, in order,
      starting from `torch.zeros([dimOut, dimIn])`. */
  function MaskOf(adj: AdjacencyList, dimOut: nat, dimIn: nat): (m: Matrix)
    requires Indexable(adj, dimOut, dimIn)
    ensures IsMatrix(m, dimOut, dimIn)
    decreases |adj|
  {
    if adj == [] then Zeros(dimOut, dimIn)
    else
      var prefix := adj[..|adj| - 1];
      assert forall e :: e in prefix ==> e in adj;
      var m := MaskOf(prefix, dimOut, dimIn);
      var e := adj[|adj| - 1];
      if e.dst < dimIn then m[e.src := m[e.src][e.dst := 1.0]] else m
  }

  /** Entry `(a, b)` of the mask is 1 exactly when `[a, b]` is an edge, and 0
      otherwise; edges that point past `dimIn` leave no trace. */
  lemma {:induction false} MaskEntry(adj: AdjacencyList, dimOut: nat, dimIn: nat, a: nat, b: nat)
    requires Indexable(adj, dimOut, dimIn)
    requires a < dimOut && b < dimIn
    ensures MaskOf(adj, dimOut, dimIn)[a][b] == if Edge(a, b) in adj then 1.0 else 0.0
    decreases |adj|
  {
    if adj != [] {
      var prefix := adj[..|adj| - 1];
      assert forall e :: e in prefix ==> e in adj;
      assert adj == prefix + [adj[|adj| - 1]];
      MaskEntry(prefix, dimOut, dimIn, a, b);
    }
  }

  /** The mask depends on the SET of edges only: duplicated or reordered edges
      give the same mask. */
  lemma MaskIgnoresOrderAndDuplicates(adj1: AdjacencyList, adj2: AdjacencyList, dimOut: nat, dimIn: nat)
    requires Indexable(adj1, dimOut, dimIn)
    requires forall e :: e in adj1 <==> e in adj2
    ensures Indexable(adj2, dimOut, dimIn)
    ensures MaskOf(adj1, dimOut, dimIn) == MaskOf(adj2, dimOut, dimIn)
  {
    var m1, m2 := MaskOf(adj1, dimOut, dimIn), MaskOf(adj2, dimOut, dimIn);
    forall a | 0 <= a < dimOut ensures m1[a] == m2[a] {
      forall b | 0 <= b < dimIn ensures m1[a][b] == m2[a][b] {
        MaskEntry(adj1, dimOut, dimIn, a, b);
        MaskEntry(adj2, dimOut, dimIn, a, b);
      }
    }
  }

  /** Only the edges that point below `dimIn`. */
  function InputEdges(adj: AdjacencyList, dimIn: nat): (r: AdjacencyList)
    ensures forall e :: e in r <==> e in adj && e.dst < dimIn
  {
    if adj == [] then []
    else if adj[0].dst < dimIn then [adj[0]] + InputEdges(adj[1..], dimIn)
    else InputEdges(adj[1..], dimIn)
  }

  /** Edges whose input index is at least `dimIn` are skipped silently: the
      mask is the one of the list without them, and their sources may be
      anything. */
  lemma MaskSkipsOutOfRangeEdges(adj: AdjacencyList, dimOut: nat, dimIn: nat)
    requires Indexable(adj, dimOut, dimIn)
    ensures Indexable(InputEdges(adj, dimIn), dimOut, dimIn)
    ensures MaskOf(adj, dimOut, dimIn) == MaskOf(InputEdges(adj, dimIn), dimOut, dimIn)
  {
    var f := InputEdges(adj, dimIn);
    var m1, m2 := MaskOf(adj, dimOut, dimIn), MaskOf(f, dimOut, dimIn);
    forall a | 0 <= a < dimOut ensures m1[a] == m2[a] {
      forall b | 0 <= b < dimIn ensures m1[a][b] == m2[a][b] {
        MaskEntry(adj, dimOut, dimIn, a, b);
        MaskEntry(f, dimOut, dimIn, a, b);
      }
    }
  }

  /** The construction loop: zero-fill a `dimOut x dimIn` matrix, then set
      entry `(a, b)` to 1 for every edge `[a, b]` with `b < dimIn`. */
  method BuildMask(adj: AdjacencyList, dimOut: nat, dimIn: nat) returns (m: array2<real>)
    requires Indexable(adj, dimOut, dimIn)
    ensures m.Length0 == dimOut && m.Length1 == dimIn
    ensures forall a, b :: 0 <= a < dimOut && 0 <= b < dimIn ==>
              m[a, b] == (if Edge(a, b) in adj then 1.0 else 0.0)
    ensures forall a, b :: 0 <= a < dimOut && 0 <= b < dimIn ==>
              m[a, b] == MaskOf(adj, dimOut, dimIn)[a][b]
  {
    m := new real[dimOut, dimIn]((_, _) => 0.0);
    var k := 0;
    while k < |adj|
      invariant 0 <= k <= |adj|
      invariant forall a, b :: 0 <= a < dimOut && 0 <= b < dimIn ==>
                  m[a, b] == (if Edge(a, b) in adj[..k] then 1.0 else 0.0)
    {
      var e := adj[k];
      if e.dst < dimIn {
        m[e.src, e.dst] := 1.0;
      }
      assert adj[..k + 1] == adj[..k] + [e];
      k := k + 1;
    }
    assert adj[..k] == adj;
    forall a, b | 0 <= a < dimOut && 0 <= b < dimIn
      ensures m[a, b] == MaskOf(adj, dimOut, dimIn)[a][b]
    {
      MaskEntry(adj, dimOut, dimIn, a, b);
    }
  }

  /** The contents of a two-dimensional array, row by row. */
  function Rows(m: array2<real>): (r: Matrix)
    reads m
    ensures IsMatrix(r, m.Length0, m.Length1)
    ensures forall a, b :: 0 <= a < m.Length0 && 0 <= b < m.Length1 ==> r[a][b] == m[a, b]
  {
    seq(m.Length0, a reads m => seq(m.Length1, b reads m => if 0 <= a < m.Length0 && 0 <= b < m.Length1 then m[a, b] else 0.0))
  }
}
