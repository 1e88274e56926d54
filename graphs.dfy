/** The graphical models of models.py as far as the flows see them: their
    dimensions, their static `faithful_adjacency` tables, and the random
    adjacency most of them draw by rejection. The densities and samplers of
    the models are not part of this module. */
module Graphs {
  import opened Common
  import opened Adjacency

  /** The model classes of models.py that the driver instantiates by name. */
  datatype ModelKind =
    | GaussianBN | Circle | StateSpace | StateSpaceLarger | Crazy1D | Toy(dataset: string)
    | BiggerGraph1 | BiggerGraph2 | BiggerGraph3 | BiggerGraph4 | BiggerGraph5 | BiggerGraph6
    | SimpleArithmeticCircuit | BernoulliGMM

  /** What a model exposes to the flows. A model without an adjacency attribute
      (the circle and the toy data) has `None` there. */
  datatype GraphModel = GraphModel(dimLatent: nat, dimCondition: nat,
                                   faithful: Option<AdjacencyList>, rand: Option<AdjacencyList>)

  /** How a model obtains `rand_adjacency`: not at all, as a fixed list, or by
      the retry loop keeping the edges whose uniform draw exceeds `threshold`. */
  datatype RandRule = NoRand | StaticRand(adj: AdjacencyList) | Drawn(threshold: real)

  /** One line of a table: the edges `[src, d]` for each `d` of `dsts`, in order. */
  function Line(src: nat, dsts: seq<nat>): AdjacencyList
  {
    seq(|dsts|, i requires 0 <= i < |dsts| => Edge(src, dsts[i]))
  }

  lemma LineInRange(src: nat, dsts: seq<nat>, dimLatent: nat, dimCondition: nat)
    requires src < dimLatent && forall d :: d in dsts ==> d < dimLatent + dimCondition
    ensures InRange(Line(src, dsts), dimLatent, dimCondition)
  {
    var l := Line(src, dsts);
    forall e | e in l ensures e.src < dimLatent && e.dst < dimLatent + dimCondition {
      var i :| 0 <= i < |l| && l[i] == e;
      assert dsts[i] in dsts;
    }
  }

  // The explicit edges of the tables, line by line as written in models.py;
  // each of these tables then appends `SelfLoops(dim_latent)`.

  const GaussianBNEdges: AdjacencyList :=
      Line(0, [1, 2])
    + Line(1, [3, 4, 6, 11, 12])
    + Line(2, [1, 5, 6])
    + Line(3, [7, 8, 9, 10, 11, 12, 13, 14])
    + Line(4, [3, 6, 9, 10, 11, 12])
    + Line(5, [1, 6, 11, 12])
    + Line(6, [3, 9, 10, 11, 12, 13, 14])

  const StateSpaceEdges: AdjacencyList :=
      Line(0, [4, 5, 6, 7])
    + Line(1, [0, 5, 6, 7])
    + Line(2, [0, 1, 6, 7])
    + Line(3, [0, 1, 2, 7])

  // The longer tables are split into blocks of consecutive lines.
  const StateSpaceLargerBlock1: AdjacencyList :=
      Line(0, [10, 11, 12, 13, 14, 15, 16, 17, 18, 19])
    + Line(1, [0, 11, 12, 13, 14, 15, 16, 17, 18, 19])
    + Line(2, [0, 1, 12, 13, 14, 15, 16, 17, 18, 19])
    + Line(3, [0, 1, 13, 14, 15, 16, 17, 18, 19, 2])
    + Line(4, [0, 1, 14, 15, 16, 17, 18, 19, 2, 3])

  const StateSpaceLargerBlock2: AdjacencyList :=
      Line(5, [0, 1, 15, 16, 17, 18, 19, 2, 3, 4])
    + Line(6, [0, 1, 16, 17, 18, 19, 2, 3, 4, 5])
    + Line(7, [0, 1, 17, 18, 19, 2, 3, 4, 5, 6])
    + Line(8, [0, 1, 18, 19, 2, 3, 4, 5, 6, 7])
    + Line(9, [0, 1, 19, 2, 3, 4, 5, 6, 7, 8])

  const StateSpaceLargerEdges: AdjacencyList := StateSpaceLargerBlock1 + StateSpaceLargerBlock2

  // The longer tables are split into blocks of consecutive lines.
  const BiggerGraphBlock1: AdjacencyList :=
      Line(0, [1, 6, 9])
    + Line(1, [12, 2, 3, 6, 20, 21])
    + Line(10, [14, 15, 20, 21])
    + Line(11, [10, 14, 15, 20, 21])
    + Line(12, [11, 15, 2, 5, 8, 20, 21])
    + Line(13, [1, 12, 16, 6, 21])

  const BiggerGraphBlock2: AdjacencyList :=
      Line(14, [15, 17, 20, 21])
    + Line(15, [17, 18, 19, 20, 21])
    + Line(16, [1, 12, 6, 20, 21])
    + Line(2, [11, 15, 4, 5, 8, 20, 21])
    + Line(3, [12, 2, 6, 20, 21])
    + Line(4, [11, 15, 5, 7, 8, 20, 21])

  const BiggerGraphBlock3: AdjacencyList :=
      Line(5, [11, 15, 7, 8, 20, 21])
    + Line(6, [12, 2, 5, 8, 20, 21])
    + Line(7, [10, 11, 15, 8, 20, 21])
    + Line(8, [10, 11, 15, 20, 21])
    + Line(9, [1, 13, 6, 21])

  /** The six `BiggerGraph` classes share this table and differ only in their densities. */
  const BiggerGraphEdges: AdjacencyList := BiggerGraphBlock1 + BiggerGraphBlock2 + BiggerGraphBlock3

  const SimpleArithmeticCircuitEdges: AdjacencyList :=
      Line(0, [1, 2, 3])
    + Line(1, [3])
    + Line(2, [1, 3])
    + Line(3, [6, 7])
    + Line(4, [3, 5])
    + Line(5, [3, 7])

  /** These two tables are written out whole, without generated self-loops,
      and serve as the random adjacency too. */
  const Crazy1DTable: AdjacencyList := [Edge(0, 0), Edge(0, 1)]

  const BernoulliGMMTable: AdjacencyList := [Edge(0, 1), Edge(0, 0)]

  /** `(dim_latent, dim_condition)` of each model. */
  function Dimensions(k: ModelKind): (nat, nat)
  {
    match k
    case GaussianBN => (7, 8)
    case Circle => (2, 1)
    case StateSpace => (4, 4)
    case StateSpaceLarger => (10, 10)
    case Crazy1D => (1, 1)
    case Toy(_) => (2, 0)
    case SimpleArithmeticCircuit => (6, 2)
    case BernoulliGMM => (1, 1)
    case _ => (17, 5)
  }

  /** The circle and the toy data have no adjacency attributes. */
  predicate HasTable(k: ModelKind)
  {
    !k.Circle? && !k.Toy?
  }

  /** `faithful_adjacency` of each model that has one. */
  function FaithfulTable(k: ModelKind): (r: Option<AdjacencyList>)
    ensures r.Some? <==> HasTable(k)
  {
    match k
    case GaussianBN => Some(GaussianBNEdges + SelfLoops(7))
    case Circle => None
    case StateSpace => Some(StateSpaceEdges + SelfLoops(4))
    case StateSpaceLarger => Some(StateSpaceLargerEdges + SelfLoops(10))
    case Crazy1D => Some(Crazy1DTable)
    case Toy(_) => None
    case SimpleArithmeticCircuit => Some(SimpleArithmeticCircuitEdges + SelfLoops(6))
    case BernoulliGMM => Some(BernoulliGMMTable)
    case _ => Some(BiggerGraphEdges + SelfLoops(17))
  }

  /** Exactly the models without a faithful table have no random one; the
      drawing models' thresholds are the ones of their retry loops. */
  function RandRuleOf(k: ModelKind): (r: RandRule)
    ensures r.NoRand? <==> !HasTable(k)
    ensures r.StaticRand? <==> k == Crazy1D || k == BernoulliGMM
  {
    match k
    case GaussianBN => Drawn(0.6)
    case Circle => NoRand
    case StateSpace => Drawn(0.3)
    case StateSpaceLarger => Drawn(0.47)
    case Crazy1D => StaticRand(Crazy1DTable)
    case Toy(_) => NoRand
    case SimpleArithmeticCircuit => Drawn(0.75)
    case BernoulliGMM => StaticRand(BernoulliGMMTable)
    case _ => Drawn(0.75)
  }

  lemma GaussianBNEdgesInRange()
    ensures InRange(GaussianBNEdges, 7, 8)
  {
    LineInRange(0, [1, 2], 7, 8);
    LineInRange(1, [3, 4, 6, 11, 12], 7, 8);
    LineInRange(2, [1, 5, 6], 7, 8);
    LineInRange(3, [7, 8, 9, 10, 11, 12, 13, 14], 7, 8);
    LineInRange(4, [3, 6, 9, 10, 11, 12], 7, 8);
    LineInRange(5, [1, 6, 11, 12], 7, 8);
    LineInRange(6, [3, 9, 10, 11, 12, 13, 14], 7, 8);
  }

  lemma GaussianBNWellFormed()
    ensures WellFormed(GaussianBNEdges + SelfLoops(7), 7, 8)
  {
    GaussianBNEdgesInRange();
    SelfLoopsInRange(7, 8);
    EndsWithSelfLoopsHasSelfLoops(GaussianBNEdges, 7);
  }

  lemma StateSpaceEdgesInRange()
    ensures InRange(StateSpaceEdges, 4, 4)
  {
    LineInRange(0, [4, 5, 6, 7], 4, 4);
    LineInRange(1, [0, 5, 6, 7], 4, 4);
    LineInRange(2, [0, 1, 6, 7], 4, 4);
    LineInRange(3, [0, 1, 2, 7], 4, 4);
  }

  lemma StateSpaceWellFormed()
    ensures WellFormed(StateSpaceEdges + SelfLoops(4), 4, 4)
  {
    StateSpaceEdgesInRange();
    SelfLoopsInRange(4, 4);
    EndsWithSelfLoopsHasSelfLoops(StateSpaceEdges, 4);
  }

  lemma StateSpaceLargerBlock1InRange()
    ensures InRange(StateSpaceLargerBlock1, 10, 10)
  {
    LineInRange(0, [10, 11, 12, 13, 14, 15, 16, 17, 18, 19], 10, 10);
    LineInRange(1, [0, 11, 12, 13, 14, 15, 16, 17, 18, 19], 10, 10);
    LineInRange(2, [0, 1, 12, 13, 14, 15, 16, 17, 18, 19], 10, 10);
    LineInRange(3, [0, 1, 13, 14, 15, 16, 17, 18, 19, 2], 10, 10);
    LineInRange(4, [0, 1, 14, 15, 16, 17, 18, 19, 2, 3], 10, 10);
  }

  lemma StateSpaceLargerBlock2InRange()
    ensures InRange(StateSpaceLargerBlock2, 10, 10)
  {
    LineInRange(5, [0, 1, 15, 16, 17, 18, 19, 2, 3, 4], 10, 10);
    LineInRange(6, [0, 1, 16, 17, 18, 19, 2, 3, 4, 5], 10, 10);
    LineInRange(7, [0, 1, 17, 18, 19, 2, 3, 4, 5, 6], 10, 10);
    LineInRange(8, [0, 1, 18, 19, 2, 3, 4, 5, 6, 7], 10, 10);
    LineInRange(9, [0, 1, 19, 2, 3, 4, 5, 6, 7, 8], 10, 10);
  }

  lemma StateSpaceLargerEdgesInRange()
    ensures InRange(StateSpaceLargerEdges, 10, 10)
  {
    StateSpaceLargerBlock1InRange();
    StateSpaceLargerBlock2InRange();
  }

  lemma StateSpaceLargerWellFormed()
    ensures WellFormed(StateSpaceLargerEdges + SelfLoops(10), 10, 10)
  {
    StateSpaceLargerEdgesInRange();
    SelfLoopsInRange(10, 10);
    EndsWithSelfLoopsHasSelfLoops(StateSpaceLargerEdges, 10);
  }

  lemma BiggerGraphBlock1InRange()
    ensures InRange(BiggerGraphBlock1, 17, 5)
  {
    LineInRange(0, [1, 6, 9], 17, 5);
    LineInRange(1, [12, 2, 3, 6, 20, 21], 17, 5);
    LineInRange(10, [14, 15, 20, 21], 17, 5);
    LineInRange(11, [10, 14, 15, 20, 21], 17, 5);
    LineInRange(12, [11, 15, 2, 5, 8, 20, 21], 17, 5);
    LineInRange(13, [1, 12, 16, 6, 21], 17, 5);
  }

  lemma BiggerGraphBlock2InRange()
    ensures InRange(BiggerGraphBlock2, 17, 5)
  {
    LineInRange(14, [15, 17, 20, 21], 17, 5);
    LineInRange(15, [17, 18, 19, 20, 21], 17, 5);
    LineInRange(16, [1, 12, 6, 20, 21], 17, 5);
    LineInRange(2, [11, 15, 4, 5, 8, 20, 21], 17, 5);
    LineInRange(3, [12, 2, 6, 20, 21], 17, 5);
    LineInRange(4, [11, 15, 5, 7, 8, 20, 21], 17, 5);
  }

  lemma BiggerGraphBlock3InRange()
    ensures InRange(BiggerGraphBlock3, 17, 5)
  {
    LineInRange(5, [11, 15, 7, 8, 20, 21], 17, 5);
    LineInRange(6, [12, 2, 5, 8, 20, 21], 17, 5);
    LineInRange(7, [10, 11, 15, 8, 20, 21], 17, 5);
    LineInRange(8, [10, 11, 15, 20, 21], 17, 5);
    LineInRange(9, [1, 13, 6, 21], 17, 5);
  }

  lemma BiggerGraphEdgesInRange()
    ensures InRange(BiggerGraphEdges, 17, 5)
  {
    BiggerGraphBlock1InRange();
    BiggerGraphBlock2InRange();
    BiggerGraphBlock3InRange();
  }

  lemma BiggerGraphWellFormed()
    ensures WellFormed(BiggerGraphEdges + SelfLoops(17), 17, 5)
  {
    BiggerGraphEdgesInRange();
    SelfLoopsInRange(17, 5);
    EndsWithSelfLoopsHasSelfLoops(BiggerGraphEdges, 17);
  }

  lemma SimpleArithmeticCircuitEdgesInRange()
    ensures InRange(SimpleArithmeticCircuitEdges, 6, 2)
  {
    LineInRange(0, [1, 2, 3], 6, 2);
    LineInRange(1, [3], 6, 2);
    LineInRange(2, [1, 3], 6, 2);
    LineInRange(3, [6, 7], 6, 2);
    LineInRange(4, [3, 5], 6, 2);
    LineInRange(5, [3, 7], 6, 2);
  }

  lemma SimpleArithmeticCircuitWellFormed()
    ensures WellFormed(SimpleArithmeticCircuitEdges + SelfLoops(6), 6, 2)
  {
    SimpleArithmeticCircuitEdgesInRange();
    SelfLoopsInRange(6, 2);
    EndsWithSelfLoopsHasSelfLoops(SimpleArithmeticCircuitEdges, 6);
  }

  lemma StaticTablesWellFormed()
    ensures WellFormed(Crazy1DTable, 1, 1) && WellFormed(BernoulliGMMTable, 1, 1)
  {
    assert Crazy1DTable[0] == Edge(0, 0) && BernoulliGMMTable[1] == Edge(0, 0);
  }

  /** The two fixed random lists are the models' faithful tables. */
  lemma StaticRandIsFaithful(k: ModelKind)
    requires RandRuleOf(k).StaticRand?
    ensures FaithfulTable(k) == Some(RandRuleOf(k).adj)
  {
  }

  /** Every static table only links latent sources to latent or conditioning
      targets and holds every latent self-loop. */
  lemma FaithfulTablesWellFormed(k: ModelKind)
    requires FaithfulTable(k).Some?
    ensures WellFormed(FaithfulTable(k).value, Dimensions(k).0, Dimensions(k).1)
  {
    match k
    case GaussianBN => GaussianBNWellFormed();
    case StateSpace => StateSpaceWellFormed();
    case StateSpaceLarger => StateSpaceLargerWellFormed();
    case Crazy1D => StaticTablesWellFormed();
    case SimpleArithmeticCircuit => SimpleArithmeticCircuitWellFormed();
    case BernoulliGMM => StaticTablesWellFormed();
    case BiggerGraph1 => BiggerGraphWellFormed();
    case BiggerGraph2 => BiggerGraphWellFormed();
    case BiggerGraph3 => BiggerGraphWellFormed();
    case BiggerGraph4 => BiggerGraphWellFormed();
    case BiggerGraph5 => BiggerGraphWellFormed();
    case BiggerGraph6 => BiggerGraphWellFormed();
  }

  /** The set one attempt of the retry loop builds: each pair `(i, j)` with
      `i < dim_latent`, `j < dim_latent + dim_condition` whose draw exceeds the
      threshold, together with every latent self-loop (a self-loop is kept
      whatever its draw). */
  function Candidates(dimLatent: nat, dimCondition: nat, threshold: real,
                      draw: (nat, nat, nat) -> real, attempt: nat): (s: set<Edge>)
    ensures forall e :: e in s ==> e.src < dimLatent && e.dst < dimLatent + dimCondition
    ensures forall i :: 0 <= i < dimLatent ==> Edge(i, i) in s
  {
    var s := set i: nat, j: nat | i < dimLatent && j < dimLatent + dimCondition && (i == j || draw(attempt, i, j) > threshold)
               :: Edge(i, j);
    assert forall i :: 0 <= i < dimLatent ==> Edge(i, i) in s;
    s
  }

  /** An off-diagonal pair is a candidate exactly when its draw exceeds the
      threshold; the strict comparison is the source's. */
  lemma CandidateIffDrawExceeds(dimLatent: nat, dimCondition: nat, threshold: real,
                                draw: (nat, nat, nat) -> real, attempt: nat, i: nat, j: nat)
    requires i < dimLatent && j < dimLatent + dimCondition && i != j
    ensures Edge(i, j) in Candidates(dimLatent, dimCondition, threshold, draw, attempt)
            <==> draw(attempt, i, j) > threshold
  {
  }

  /** The list holds exactly the elements of the set. */
  ghost predicate SameEdges(l: AdjacencyList, s: set<Edge>)
  {
    forall e :: e in l <==> e in s
  }

  /** `list(set(...))`: the elements of a finite set, each once, in some order. */
  method SetToList(s: set<Edge>) returns (r: AdjacencyList)
    ensures |r| == |s| && NoDuplicates(r) && SameEdges(r, s)
  {
    r := [];
    var rest := s;
    while rest != {}
      invariant rest <= s
      invariant forall e :: e in r <==> e in s && e !in rest
      invariant NoDuplicates(r) && |r| + |rest| == |s|
      decreases |rest|
    {
      var e :| e in rest;
      r := r + [e];
      rest := rest - {e};
    }
  }

  /** One attempt: `list(set(...))` of the attempt's candidates. */
  method DrawAttempt(dimLatent: nat, dimCondition: nat, threshold: real,
                     draw: (nat, nat, nat) -> real, attempt: nat) returns (l: AdjacencyList)
    ensures NoDuplicates(l) && InRange(l, dimLatent, dimCondition) && HasSelfLoops(l, dimLatent)
    ensures |l| == |Candidates(dimLatent, dimCondition, threshold, draw, attempt)|
    ensures SameEdges(l, Candidates(dimLatent, dimCondition, threshold, draw, attempt))
  {
    var candidates := Candidates(dimLatent, dimCondition, threshold, draw, attempt);
    l := SetToList(candidates);
  }

  /** Attempts `0 .. n - 1` all drew a candidate set whose size is not `target`. */
  ghost predicate AllMissed(dimLatent: nat, dimCondition: nat, threshold: real,
                            draw: (nat, nat, nat) -> real, target: nat, n: nat)
    decreases n
  {
    n == 0 || (AllMissed(dimLatent, dimCondition, threshold, draw, target, n - 1) &&
               |Candidates(dimLatent, dimCondition, threshold, draw, n - 1)| != target)
  }

  /** The recursive definition says what it means: every attempt before `n` missed. */
  lemma {:induction false} AllMissedIff(dimLatent: nat, dimCondition: nat, threshold: real,
                                        draw: (nat, nat, nat) -> real, target: nat, n: nat)
    ensures AllMissed(dimLatent, dimCondition, threshold, draw, target, n) <==>
              forall a :: 0 <= a < n ==> |Candidates(dimLatent, dimCondition, threshold, draw, a)| != target
  {
    if n > 0 {
      AllMissedIff(dimLatent, dimCondition, threshold, draw, target, n - 1);
    }
  }

  /** An attempt whose candidate set misses the target size extends the run of misses. */
  lemma AllMissedExtend(dimLatent: nat, dimCondition: nat, threshold: real,
                        draw: (nat, nat, nat) -> real, target: nat, n: nat)
    requires AllMissed(dimLatent, dimCondition, threshold, draw, target, n)
    requires |Candidates(dimLatent, dimCondition, threshold, draw, n)| != target
    ensures AllMissed(dimLatent, dimCondition, threshold, draw, target, n + 1)
  {
  }

  /** Attempt `n` is the first whose candidate set has the target size, and `l` lists it. */
  ghost predicate FirstHit(dimLatent: nat, dimCondition: nat, threshold: real,
                           draw: (nat, nat, nat) -> real, target: nat, l: AdjacencyList, n: nat)
  {
    && SameEdges(l, Candidates(dimLatent, dimCondition, threshold, draw, n))
    && |Candidates(dimLatent, dimCondition, threshold, draw, n)| == target
    && forall a :: 0 <= a < n ==> |Candidates(dimLatent, dimCondition, threshold, draw, a)| != target
  }

  /** The retry loop `while len(rand_adjacency) != len(faithful_adjacency)`.
      The source loop need not terminate; here it gives up with `None` after
      `fuel` attempts, all of whose candidate sets missed the target size.
      Otherwise the list is the candidates of the first attempt whose set has
      the target size (no attempt when the target is 0): no duplicate, only
      edges in range and every self-loop. */
  method RandAdjacency(dimLatent: nat, dimCondition: nat, target: nat, threshold: real,
                       draw: (nat, nat, nat) -> real, fuel: nat) returns (r: Option<AdjacencyList>)
    ensures r.Some? ==> |r.value| == target && NoDuplicates(r.value) && InRange(r.value, dimLatent, dimCondition)
    ensures r.Some? && target > 0 ==> HasSelfLoops(r.value, dimLatent)
    ensures r.Some? && target > 0 ==>
              exists attempt :: 0 <= attempt < fuel && FirstHit(dimLatent, dimCondition, threshold, draw, target, r.value, attempt)
    ensures r.None? ==> target > 0
    ensures r.None? ==> forall a :: 0 <= a < fuel ==> |Candidates(dimLatent, dimCondition, threshold, draw, a)| != target
    ensures target == 0 ==> r == Some([])
  {
    var rand: AdjacencyList := [];
    var attempt := 0;
    ghost var drawn: set<Edge> := {};
    while |rand| != target
      invariant attempt <= fuel
      invariant NoDuplicates(rand) && InRange(rand, dimLatent, dimCondition)
      invariant attempt == 0 ==> rand == []
      invariant target == 0 ==> attempt == 0
      invariant attempt > 0 ==> drawn == Candidates(dimLatent, dimCondition, threshold, draw, attempt - 1)
      invariant attempt > 0 ==> HasSelfLoops(rand, dimLatent) && |rand| == |drawn| && SameEdges(rand, drawn)
      invariant attempt > 0 ==> AllMissed(dimLatent, dimCondition, threshold, draw, target, attempt - 1)
      decreases fuel - attempt
    {
      if attempt > 0 {
        AllMissedExtend(dimLatent, dimCondition, threshold, draw, target, attempt - 1);
      }
      if attempt == fuel {
        AllMissedIff(dimLatent, dimCondition, threshold, draw, target, fuel);
        return None;
      }
      rand := DrawAttempt(dimLatent, dimCondition, threshold, draw, attempt);
      drawn := Candidates(dimLatent, dimCondition, threshold, draw, attempt);
      attempt := attempt + 1;
    }
    r := Some(rand);
    if target > 0 {
      AllMissedIff(dimLatent, dimCondition, threshold, draw, target, attempt - 1);
      assert FirstHit(dimLatent, dimCondition, threshold, draw, target, rand, attempt - 1);
    }
  }

  /** Every attempt within `fuel` draws a candidate set of the wrong size for `k`. */
  ghost predicate AllAttemptsMiss(k: ModelKind, draw: (nat, nat, nat) -> real, fuel: nat)
    requires RandRuleOf(k).Drawn? && FaithfulTable(k).Some?
  {
    forall a :: 0 <= a < fuel ==>
      |Candidates(Dimensions(k).0, Dimensions(k).1, RandRuleOf(k).threshold, draw, a)| != |FaithfulTable(k).value|
  }

  /** `m` is the model of kind `k` with the random adjacency drawn by `draw`
      within `fuel` attempts: the dimensions and the table of `k`, no random
      list, the static one, or the first hit of the draws, which has the
      length of the faithful table, no duplicate and is well formed. */
  ghost predicate BuiltAs(k: ModelKind, draw: (nat, nat, nat) -> real, fuel: nat, m: GraphModel)
  {
    && m.dimLatent == Dimensions(k).0 && m.dimCondition == Dimensions(k).1
    && m.faithful == FaithfulTable(k)
    && (RandRuleOf(k).NoRand? ==> m.rand.None?)
    && (RandRuleOf(k).StaticRand? ==> m.rand == Some(RandRuleOf(k).adj))
    && (RandRuleOf(k).Drawn? ==>
          && m.rand.Some? && m.faithful.Some?
          && |m.rand.value| == |m.faithful.value|
          && NoDuplicates(m.rand.value)
          && WellFormed(m.rand.value, m.dimLatent, m.dimCondition)
          && exists attempt :: 0 <= attempt < fuel &&
               FirstHit(Dimensions(k).0, Dimensions(k).1, RandRuleOf(k).threshold, draw,
                        |FaithfulTable(k).value|, m.rand.value, attempt))
  }

  /** A model's constructor: its dimensions, its table, and its random
      adjacency, drawn with the oracle `draw` where the model draws one. */
  method NewGraphModel(k: ModelKind, draw: (nat, nat, nat) -> real, fuel: nat) returns (m: Option<GraphModel>)
    ensures m.Some? ==> BuiltAs(k, draw, fuel, m.value)
    ensures m.None? ==> RandRuleOf(k).Drawn? && FaithfulTable(k).Some? && AllAttemptsMiss(k, draw, fuel)
  {
    var (dl, dc) := Dimensions(k);
    var faithful := FaithfulTable(k);
    match RandRuleOf(k)
    case NoRand =>
      m := Some(GraphModel(dl, dc, faithful, None));
    case StaticRand(adj) =>
      m := Some(GraphModel(dl, dc, faithful, Some(adj)));
    case Drawn(threshold) =>
      FaithfulTablesWellFormed(k);
      var rand := RandAdjacency(dl, dc, |faithful.value|, threshold, draw, fuel);
      if rand.None? {
        m := None;
      } else {
        m := Some(GraphModel(dl, dc, faithful, rand));
      }
  }
}
