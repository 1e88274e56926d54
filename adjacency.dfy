/** Directed edge lists: an edge `[a, b]` says that input `b` may influence
    output (latent) `a`. Indices below `dimLatent` are latent variables, indices
    from `dimLatent` up to `dimLatent + dimCondition` are conditioning
    variables. */
module Adjacency {

  datatype Edge = Edge(src: nat, dst: nat)

  type AdjacencyList = seq<Edge>

  /** `[[i, i] for i in range(n)]` */
  function SelfLoops(n: nat): (r: AdjacencyList)
    ensures |r| == n
    ensures forall i :: 0 <= i < n ==> r[i] == Edge(i, i)
  {
    if n == 0 then [] else SelfLoops(n - 1) + [Edge(n - 1, n - 1)]
  }

  /** Every source is a latent index and every target a latent or conditioning index. */
  predicate InRange(adj: AdjacencyList, dimLatent: nat, dimCondition: nat)
  {
    forall e :: e in adj ==> e.src < dimLatent && e.dst < dimLatent + dimCondition
  }

  /** Every latent index carries its self-loop. */
  predicate HasSelfLoops(adj: AdjacencyList, dimLatent: nat)
  {
    forall i :: 0 <= i < dimLatent ==> Edge(i, i) in adj
  }

  predicate NoDuplicates(adj: AdjacencyList)
  {
    forall i, j :: 0 <= i < j < |adj| ==> adj[i] != adj[j]
  }

  /** The invariant every adjacency set of a graphical model must meet. */
  predicate WellFormed(adj: AdjacencyList, dimLatent: nat, dimCondition: nat)
  {
    InRange(adj, dimLatent, dimCondition) && HasSelfLoops(adj, dimLatent)
  }

  /** The generated self-loops are in range whenever a latent index is. */
  lemma SelfLoopsInRange(dimLatent: nat, dimCondition: nat)
    ensures InRange(SelfLoops(dimLatent), dimLatent, dimCondition)
  {
    var s := SelfLoops(dimLatent);
    forall e | e in s ensures e.src < dimLatent && e.dst < dimLatent + dimCondition {
      var i :| 0 <= i < |s| && s[i] == e;
    }
  }

  /** A list that ends with the generated self-loops has every self-loop. */
  lemma EndsWithSelfLoopsHasSelfLoops(explicit: AdjacencyList, dimLatent: nat)
    ensures HasSelfLoops(explicit + SelfLoops(dimLatent), dimLatent)
  {
    var adj := explicit + SelfLoops(dimLatent);
    forall i | 0 <= i < dimLatent ensures Edge(i, i) in adj {
      assert adj[|explicit| + i] == Edge(i, i);
    }
  }
}
