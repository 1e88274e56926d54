/** `AugmentedModel` (models.py): appends `len(to_augment)` extra latent
    copies to a base model and rewrites its two adjacency lists.

    Conditioning indices move up by `k = len(to_augment)` to make room; the
    `i`-th copy (latent index `dl + i`) inherits the outgoing edges of
    `to_augment[i]`, is linked to and from it, and is linked to the other
    copies wherever the base model links the variables they copy. The 0/1
    matrices the source builds for that last step are arrays here, and the
    exceptions the source can raise are `Err` results. */
module Augmentation {
  import opened Common
  import opened Adjacency
  import opened Masks
  import opened Graphs

  datatype AugError =
    | MissingAttribute(name: string) // AttributeError: the base model has no such list
    | AssertionFailed                // the `assert a < model.dim_latent`
    | IndexOutOfRange                // IndexError of a torch matrix

  /** A base index after making room for `k` copies after the `dl` latents. */
  function Shift(b: nat, dl: nat, k: nat): nat
  {
    if b < dl then b else b + k
  }

  function Unshift(b: nat, dl: nat, k: nat): nat
    requires !(dl <= b < dl + k)
  {
    if b < dl then b else b - k
  }

  /** Shifting never lands on a copy, is undone by `Unshift`, and every index
      outside the copies is the shift of exactly one base index. */
  lemma ShiftRoundTrip(b: nat, c: nat, dl: nat, k: nat)
    ensures !(dl <= Shift(b, dl, k) < dl + k)
    ensures Unshift(Shift(b, dl, k), dl, k) == b
    ensures !(dl <= c < dl + k) ==> Shift(Unshift(c, dl, k), dl, k) == c
  {
  }

  /** `[a, b if b < dl else b + k]` for each base edge: the faithful list. */
  function ShiftTargets(adj: AdjacencyList, dl: nat, k: nat): (r: AdjacencyList)
    ensures |r| == |adj|
    ensures forall i :: 0 <= i < |adj| ==> r[i] == Edge(adj[i].src, Shift(adj[i].dst, dl, k))
  {
    seq(|adj|, i requires 0 <= i < |adj| => Edge(adj[i].src, Shift(adj[i].dst, dl, k)))
  }

  /** Both endpoints shifted: the random list. */
  function ShiftBoth(adj: AdjacencyList, dl: nat, k: nat): (r: AdjacencyList)
    ensures |r| == |adj|
    ensures forall i :: 0 <= i < |adj| ==> r[i] == Edge(Shift(adj[i].src, dl, k), Shift(adj[i].dst, dl, k))
  {
    seq(|adj|, i requires 0 <= i < |adj| => Edge(Shift(adj[i].src, dl, k), Shift(adj[i].dst, dl, k)))
  }

  /** `[newSrc, b]` for each edge `[src, b]` among the first `n` of `adj`, in order. */
  function EdgesFromUpTo(adj: AdjacencyList, src: nat, newSrc: nat, n: nat): AdjacencyList
    requires n <= |adj|
  {
    if n == 0 then []
    else EdgesFromUpTo(adj, src, newSrc, n - 1) +
         (if adj[n - 1].src == src then [Edge(newSrc, adj[n - 1].dst)] else [])
  }

  /** `[newSrc, b]` for each edge `[src, b]` of `adj`, in order. */
  function EdgesFrom(adj: AdjacencyList, src: nat, newSrc: nat): AdjacencyList
  {
    EdgesFromUpTo(adj, src, newSrc, |adj|)
  }

  /** `augmented_conditioning` after the first `n` copies: the inherited edges
      of every copy, copy by copy. */
  function AugCondUpTo(shifted: AdjacencyList, toAugment: seq<nat>, dl: nat, n: nat): AdjacencyList
    requires n <= |toAugment|
  {
    if n == 0 then []
    else AugCondUpTo(shifted, toAugment, dl, n - 1) + EdgesFrom(shifted, toAugment[n - 1], dl + (n - 1))
  }

  function AugCond(shifted: AdjacencyList, toAugment: seq<nat>, dl: nat): AdjacencyList
  {
    AugCondUpTo(shifted, toAugment, dl, |toAugment|)
  }

  /** `[[a, i + in_offset] for (i, a) in enumerate(to_augment)]` */
  function LinksIn(toAugment: seq<nat>, dl: nat): (r: AdjacencyList)
    ensures |r| == |toAugment|
  {
    seq(|toAugment|, i requires 0 <= i < |toAugment| => Edge(toAugment[i], dl + i))
  }

  /** `[[i + out_offset, a] for (i, a) in enumerate(to_augment)]` */
  function LinksOut(toAugment: seq<nat>, dl: nat): (r: AdjacencyList)
    ensures |r| == |toAugment|
  {
    seq(|toAugment|, i requires 0 <= i < |toAugment| => Edge(dl + i, toAugment[i]))
  }

  predicate Linked(adj: AdjacencyList, a: nat, b: nat)
  {
    Edge(a, b) in adj
  }

  /** The copy-to-copy edges of the pairs `(p, q)` visited before `(i, j)`, in
      the comprehension's row-major order. */
  function SelfEdgesBefore(adj: AdjacencyList, toAugment: seq<nat>, dl: nat, i: nat, j: nat): AdjacencyList
    requires (i < |toAugment| && j <= |toAugment|) || (i == |toAugment| && j == 0)
    decreases i, j
  {
    if j == 0 then
      (if i == 0 then [] else SelfEdgesBefore(adj, toAugment, dl, i - 1, |toAugment|))
    else
      SelfEdgesBefore(adj, toAugment, dl, i, j - 1) +
      (if Linked(adj, toAugment[i], toAugment[j - 1]) then [Edge(dl + i, dl + j - 1)] else [])
  }

  /** `[[i + dl, j + dl] for i ... for j ... if matrix[to_augment[i], to_augment[j]] == 1.0]` */
  function SelfEdges(adj: AdjacencyList, toAugment: seq<nat>, dl: nat): AdjacencyList
  {
    SelfEdgesBefore(adj, toAugment, dl, |toAugment|, 0)
  }

  /** The augmented faithful list. */
  function AugFaithful(base: AdjacencyList, toAugment: seq<nat>, dl: nat): AdjacencyList
  {
    var shifted := ShiftTargets(base, dl, |toAugment|);
    shifted + AugCond(shifted, toAugment, dl) + LinksIn(toAugment, dl) + LinksOut(toAugment, dl)
      + SelfEdges(base, toAugment, dl)
  }

  /** The augmented random list: no inherited edges. */
  function AugRand(baseRand: AdjacencyList, toAugment: seq<nat>, dl: nat): AdjacencyList
  {
    ShiftBoth(baseRand, dl, |toAugment|) + LinksIn(toAugment, dl) + LinksOut(toAugment, dl)
      + SelfEdges(baseRand, toAugment, dl)
  }

  predicate SourcesLatent(adj: AdjacencyList, dl: nat)
  {
    forall e :: e in adj ==> e.src < dl
  }

  /** Every edge indexes a `rows x cols` matrix. */
  predicate Fits(adj: AdjacencyList, rows: nat, cols: nat)
  {
    forall e :: e in adj ==> e.src < rows && e.dst < cols
  }

  /** Every `to_augment` entry indexes a `rows x cols` matrix as row and as column. */
  predicate IndicesFit(toAugment: seq<nat>, rows: nat, cols: nat)
  {
    forall x :: x in toAugment ==> x < rows && x < cols
  }

  /** The outcome of `AugmentedModel(model, to_augment)`, with the exceptions
      in the order the constructor meets them. */
  function AugmentSpec(m: GraphModel, toAugment: seq<nat>): Result<GraphModel, AugError>
  {
    var dl, dc, k := m.dimLatent, m.dimCondition, |toAugment|;
    if m.faithful.None? then Err(MissingAttribute("faithful_adjacency"))
    else if !SourcesLatent(m.faithful.value, dl) then Err(AssertionFailed)
    else if !Fits(m.faithful.value, dl + k, dl + dc) then Err(IndexOutOfRange)
    else if !IndicesFit(toAugment, dl + k, dl + dc) then Err(IndexOutOfRange)
    else if m.rand.None? then Err(MissingAttribute("rand_adjacency"))
    else if !Fits(m.rand.value, dl, dl + dc) then Err(IndexOutOfRange)
    else if !IndicesFit(toAugment, dl, dl + dc) then Err(IndexOutOfRange)
    else Ok(GraphModel(dl + k, dc, Some(AugFaithful(m.faithful.value, toAugment, dl)),
                       Some(AugRand(m.rand.value, toAugment, dl))))
  }

  /** Every edge `EdgesFrom` keeps is the renamed copy of an edge `q` leaving `src`. */
  lemma {:induction false} EdgesFromOnly(adj: AdjacencyList, src: nat, newSrc: nat, n: nat, e: Edge)
    returns (q: nat)
    requires n <= |adj| && e in EdgesFromUpTo(adj, src, newSrc, n)
    ensures q < n && adj[q].src == src && e == Edge(newSrc, adj[q].dst)
    decreases n
  {
    if e in EdgesFromUpTo(adj, src, newSrc, n - 1) {
      q := EdgesFromOnly(adj, src, newSrc, n - 1, e);
    } else {
      q := n - 1;
    }
  }

  /** Every edge `q` leaving `src` is kept, renamed. */
  lemma {:induction false} EdgesFromHas(adj: AdjacencyList, src: nat, newSrc: nat, n: nat, q: nat)
    requires q < n <= |adj| && adj[q].src == src
    ensures Edge(newSrc, adj[q].dst) in EdgesFromUpTo(adj, src, newSrc, n)
    decreases n
  {
    var e := Edge(newSrc, adj[q].dst);
    var prev := EdgesFromUpTo(adj, src, newSrc, n - 1);
    var last := if adj[n - 1].src == src then [Edge(newSrc, adj[n - 1].dst)] else [];
    if q < n - 1 {
      EdgesFromHas(adj, src, newSrc, n - 1, q);
      assert e in prev + last;
    } else {
      assert e in last;
      assert e in prev + last;
    }
  }

  /** Every inherited edge leaves a copy `dl + idx` and repeats, renamed, a
      shifted edge `q` of the variable it copies. */
  lemma {:induction false} AugCondOnlyInherited(shifted: AdjacencyList, toAugment: seq<nat>, dl: nat, n: nat, e: Edge)
    returns (idx: nat, q: nat)
    requires n <= |toAugment| && e in AugCondUpTo(shifted, toAugment, dl, n)
    ensures idx < n && q < |shifted| && shifted[q].src == toAugment[idx]
    ensures e == Edge(dl + idx, shifted[q].dst)
    decreases n
  {
    var front := AugCondUpTo(shifted, toAugment, dl, n - 1);
    var block := EdgesFrom(shifted, toAugment[n - 1], dl + (n - 1));
    assert e in front + block;
    if e in front {
      idx, q := AugCondOnlyInherited(shifted, toAugment, dl, n - 1, e);
    } else {
      assert e in block;
      idx := n - 1;
      q := EdgesFromOnly(shifted, toAugment[idx], dl + idx, |shifted|, e);
    }
  }

  /** Later copies only add edges to `augmented_conditioning`. */
  lemma {:induction false} AugCondGrows(shifted: AdjacencyList, toAugment: seq<nat>, dl: nat, m: nat, n: nat, e: Edge)
    requires m <= n <= |toAugment| && e in AugCondUpTo(shifted, toAugment, dl, m)
    ensures e in AugCondUpTo(shifted, toAugment, dl, n)
    decreases n
  {
    if m < n {
      AugCondGrows(shifted, toAugment, dl, m, n - 1, e);
      var block := EdgesFrom(shifted, toAugment[n - 1], dl + (n - 1));
      assert e in AugCondUpTo(shifted, toAugment, dl, n - 1) + block;
    }
  }

  /** Copy `dl + idx` inherits every shifted edge leaving `to_augment[idx]`. */
  lemma AugCondHasInherited(shifted: AdjacencyList, toAugment: seq<nat>, dl: nat, n: nat, idx: nat, q: nat)
    requires idx < n <= |toAugment| && q < |shifted| && shifted[q].src == toAugment[idx]
    ensures Edge(dl + idx, shifted[q].dst) in AugCondUpTo(shifted, toAugment, dl, n)
  {
    var e := Edge(dl + idx, shifted[q].dst);
    EdgesFromHas(shifted, toAugment[idx], dl + idx, |shifted|, q);
    var block := EdgesFrom(shifted, toAugment[idx], dl + idx);
    assert e in AugCondUpTo(shifted, toAugment, dl, idx) + block;
    AugCondGrows(shifted, toAugment, dl, idx + 1, n, e);
  }

  /** Copy `dl + idx` inherits exactly the (shifted) outgoing edges of the
      variable it copies. */
  lemma AugCondIff(shifted: AdjacencyList, toAugment: seq<nat>, dl: nat, idx: nat, y: nat)
    requires idx < |toAugment|
    ensures Edge(dl + idx, y) in AugCond(shifted, toAugment, dl) <==> Edge(toAugment[idx], y) in shifted
  {
    var k := |toAugment|;
    if Edge(dl + idx, y) in AugCond(shifted, toAugment, dl) {
      var i, q := AugCondOnlyInherited(shifted, toAugment, dl, k, Edge(dl + idx, y));
      assert shifted[q] == Edge(toAugment[idx], y);
    }
    if Edge(toAugment[idx], y) in shifted {
      var q :| 0 <= q < |shifted| && shifted[q] == Edge(toAugment[idx], y);
      AugCondHasInherited(shifted, toAugment, dl, k, idx, q);
    }
  }

  /** Pair `(p, q)` comes before pair `(i, j)` in row-major order. */
  predicate Before(p: nat, q: nat, i: nat, j: nat)
  {
    p < i || (p == i && q < j)
  }

  /** Every edge collected before `(i, j)` joins the copies `dl + p` and
      `dl + q` of two linked variables, for an earlier pair `(p, q)`. */
  lemma {:induction false} SelfEdgesBeforeOnlyLinked(adj: AdjacencyList, toAugment: seq<nat>, dl: nat, i: nat, j: nat, e: Edge)
    returns (p: nat, q: nat)
    requires (i < |toAugment| && j <= |toAugment|) || (i == |toAugment| && j == 0)
    requires e in SelfEdgesBefore(adj, toAugment, dl, i, j)
    ensures e == Edge(dl + p, dl + q) && Before(p, q, i, j) && q < |toAugment|
    ensures Linked(adj, toAugment[p], toAugment[q])
    decreases i, j
  {
    if j == 0 {
      p, q := SelfEdgesBeforeOnlyLinked(adj, toAugment, dl, i - 1, |toAugment|, e);
    } else if e in SelfEdgesBefore(adj, toAugment, dl, i, j - 1) {
      p, q := SelfEdgesBeforeOnlyLinked(adj, toAugment, dl, i, j - 1, e);
    } else {
      p, q := i, j - 1;
    }
  }

  /** Every linked pair visited before `(i, j)` has contributed its edge. */
  lemma {:induction false} SelfEdgesBeforeHasLinked(adj: AdjacencyList, toAugment: seq<nat>, dl: nat, i: nat, j: nat, p: nat, q: nat)
    requires (i < |toAugment| && j <= |toAugment|) || (i == |toAugment| && j == 0)
    requires Before(p, q, i, j) && q < |toAugment|
    requires Linked(adj, toAugment[p], toAugment[q])
    ensures Edge(dl + p, dl + q) in SelfEdgesBefore(adj, toAugment, dl, i, j)
    decreases i, j
  {
    if j == 0 {
      SelfEdgesBeforeHasLinked(adj, toAugment, dl, i - 1, |toAugment|, p, q);
    } else {
      var prev := SelfEdgesBefore(adj, toAugment, dl, i, j - 1);
      var last := if Linked(adj, toAugment[i], toAugment[j - 1]) then [Edge(dl + i, dl + j - 1)] else [];
      if Before(p, q, i, j - 1) {
        SelfEdgesBeforeHasLinked(adj, toAugment, dl, i, j - 1, p, q);
        assert Edge(dl + p, dl + q) in prev + last;
      } else {
        assert Edge(dl + p, dl + q) in last;
        assert Edge(dl + p, dl + q) in prev + last;
      }
    }
  }

  /** Copies `dl + i` and `dl + j` are linked exactly when the base list links
      `to_augment[i]` to `to_augment[j]`. */
  lemma SelfEdgeIff(adj: AdjacencyList, toAugment: seq<nat>, dl: nat, i: nat, j: nat)
    requires i < |toAugment| && j < |toAugment|
    ensures Edge(dl + i, dl + j) in SelfEdges(adj, toAugment, dl) <==> Edge(toAugment[i], toAugment[j]) in adj
  {
    var k := |toAugment|;
    if Edge(dl + i, dl + j) in SelfEdges(adj, toAugment, dl) {
      var p, q := SelfEdgesBeforeOnlyLinked(adj, toAugment, dl, k, 0, Edge(dl + i, dl + j));
    }
    if Edge(toAugment[i], toAugment[j]) in adj {
      SelfEdgesBeforeHasLinked(adj, toAugment, dl, k, 0, i, j);
    }
  }

  /** Every copy-to-copy edge joins two copies. */
  lemma SelfEdgesJoinCopies(adj: AdjacencyList, toAugment: seq<nat>, dl: nat, e: Edge)
    requires e in SelfEdges(adj, toAugment, dl)
    ensures dl <= e.src < dl + |toAugment| && dl <= e.dst < dl + |toAugment|
  {
    var p, q := SelfEdgesBeforeOnlyLinked(adj, toAugment, dl, |toAugment|, 0, e);
  }

  /** Each copy is linked to and from the variable it copies, in both lists. */
  lemma CopiesAreLinked(m: GraphModel, toAugment: seq<nat>, i: nat)
    requires AugmentSpec(m, toAugment).Ok? && i < |toAugment|
    ensures var a := AugmentSpec(m, toAugment).value;
            var copy := m.dimLatent + i;
            Edge(toAugment[i], copy) in a.faithful.value && Edge(copy, toAugment[i]) in a.faithful.value &&
            Edge(toAugment[i], copy) in a.rand.value && Edge(copy, toAugment[i]) in a.rand.value
  {
    var dl := m.dimLatent;
    assert LinksIn(toAugment, dl)[i] == Edge(toAugment[i], dl + i);
    assert LinksOut(toAugment, dl)[i] == Edge(dl + i, toAugment[i]);
  }

  /** The shifted lists keep the base edges, with conditioning indices moved
      past the copies; the copies' own edges come after them. */
  lemma BaseEdgesAreShifted(m: GraphModel, toAugment: seq<nat>, e: Edge)
    requires AugmentSpec(m, toAugment).Ok?
    ensures var a := AugmentSpec(m, toAugment).value;
            var k := |toAugment|;
            (e in m.faithful.value ==> Edge(e.src, Shift(e.dst, m.dimLatent, k)) in a.faithful.value) &&
            (e in m.rand.value ==> Edge(Shift(e.src, m.dimLatent, k), Shift(e.dst, m.dimLatent, k)) in a.rand.value)
  {
    var dl, k := m.dimLatent, |toAugment|;
    if e in m.faithful.value {
      var q :| 0 <= q < |m.faithful.value| && m.faithful.value[q] == e;
      assert ShiftTargets(m.faithful.value, dl, k)[q] == Edge(e.src, Shift(e.dst, dl, k));
    }
    if e in m.rand.value {
      var q :| 0 <= q < |m.rand.value| && m.rand.value[q] == e;
      assert ShiftBoth(m.rand.value, dl, k)[q] == Edge(Shift(e.src, dl, k), Shift(e.dst, dl, k));
    }
  }

  lemma InRangeAppend(a: AdjacencyList, b: AdjacencyList, dl: nat, dc: nat)
    requires InRange(a, dl, dc) && InRange(b, dl, dc)
    ensures InRange(a + b, dl, dc)
  {
    forall e | e in a + b ensures e.src < dl && e.dst < dl + dc {
      assert e in a || e in b;
    }
  }

  lemma ShiftedInRange(base: AdjacencyList, dl: nat, dc: nat, k: nat)
    requires InRange(base, dl, dc)
    ensures InRange(ShiftTargets(base, dl, k), dl + k, dc)
    ensures InRange(ShiftBoth(base, dl, k), dl + k, dc)
  {
    var s1, s2 := ShiftTargets(base, dl, k), ShiftBoth(base, dl, k);
    forall e | e in s1 ensures e.src < dl + k && e.dst < dl + k + dc {
      var q :| 0 <= q < |s1| && s1[q] == e;
      assert base[q] in base;
    }
    forall e | e in s2 ensures e.src < dl + k && e.dst < dl + k + dc {
      var q :| 0 <= q < |s2| && s2[q] == e;
      assert base[q] in base;
    }
  }

  /** The base self-loops survive the shift. */
  lemma ShiftedHasSelfLoops(base: AdjacencyList, dl: nat, k: nat)
    requires HasSelfLoops(base, dl)
    ensures HasSelfLoops(ShiftTargets(base, dl, k), dl) && HasSelfLoops(ShiftBoth(base, dl, k), dl)
  {
    forall i | 0 <= i < dl ensures Edge(i, i) in ShiftTargets(base, dl, k) && Edge(i, i) in ShiftBoth(base, dl, k) {
      var q :| 0 <= q < |base| && base[q] == Edge(i, i);
      assert ShiftTargets(base, dl, k)[q] == Edge(i, i);
      assert ShiftBoth(base, dl, k)[q] == Edge(i, i);
    }
  }

  lemma HasSelfLoopsAppend(a: AdjacencyList, b: AdjacencyList, n: nat)
    requires HasSelfLoops(a, n)
    ensures HasSelfLoops(a + b, n)
  {
    forall i | 0 <= i < n ensures Edge(i, i) in a + b {
      assert Edge(i, i) in a;
    }
  }

  /** Appending the copy-to-copy edges extends the self-loops to the copies. */
  lemma CopiesCompleteSelfLoops(front: AdjacencyList, adj: AdjacencyList, toAugment: seq<nat>, dl: nat)
    requires HasSelfLoops(front, dl)
    requires forall x :: x in toAugment ==> Edge(x, x) in adj
    ensures HasSelfLoops(front + SelfEdges(adj, toAugment, dl), dl + |toAugment|)
  {
    var copies := SelfEdges(adj, toAugment, dl);
    forall i | 0 <= i < dl + |toAugment| ensures Edge(i, i) in front + copies {
      if i < dl {
        assert Edge(i, i) in front;
      } else {
        assert toAugment[i - dl] in toAugment;
        SelfEdgeIff(adj, toAugment, dl, i - dl, i - dl);
        assert Edge(i, i) in copies;
      }
    }
  }

  lemma InheritedInRange(shifted: AdjacencyList, toAugment: seq<nat>, dl: nat, dc: nat)
    requires InRange(shifted, dl + |toAugment|, dc)
    ensures InRange(AugCond(shifted, toAugment, dl), dl + |toAugment|, dc)
  {
    forall e | e in AugCond(shifted, toAugment, dl) ensures e.src < dl + |toAugment| && e.dst < dl + |toAugment| + dc {
      var idx, q := AugCondOnlyInherited(shifted, toAugment, dl, |toAugment|, e);
      assert shifted[q] in shifted;
    }
  }

  lemma LinksInRange(toAugment: seq<nat>, dl: nat, dc: nat)
    requires forall x :: x in toAugment ==> x < dl
    ensures InRange(LinksIn(toAugment, dl), dl + |toAugment|, dc)
    ensures InRange(LinksOut(toAugment, dl), dl + |toAugment|, dc)
  {
    var k := |toAugment|;
    forall e | e in LinksIn(toAugment, dl) ensures e.src < dl + k && e.dst < dl + k + dc {
      var q :| 0 <= q < k && LinksIn(toAugment, dl)[q] == e;
      assert toAugment[q] in toAugment;
    }
    forall e | e in LinksOut(toAugment, dl) ensures e.src < dl + k && e.dst < dl + k + dc {
      var q :| 0 <= q < k && LinksOut(toAugment, dl)[q] == e;
      assert toAugment[q] in toAugment;
    }
  }

  lemma SelfEdgesInRange(adj: AdjacencyList, toAugment: seq<nat>, dl: nat, dc: nat)
    ensures InRange(SelfEdges(adj, toAugment, dl), dl + |toAugment|, dc)
  {
    forall e | e in SelfEdges(adj, toAugment, dl) ensures e.src < dl + |toAugment| && e.dst < dl + |toAugment| + dc {
      SelfEdgesJoinCopies(adj, toAugment, dl, e);
    }
  }

  lemma FaithfulAugmentationInRange(base: AdjacencyList, toAugment: seq<nat>, dl: nat, dc: nat)
    requires InRange(base, dl, dc)
    requires forall x :: x in toAugment ==> x < dl
    ensures InRange(AugFaithful(base, toAugment, dl), dl + |toAugment|, dc)
  {
    var k := |toAugment|;
    var shifted := ShiftTargets(base, dl, k);
    var inherited := AugCond(shifted, toAugment, dl);
    var links, back, copies := LinksIn(toAugment, dl), LinksOut(toAugment, dl), SelfEdges(base, toAugment, dl);
    ShiftedInRange(base, dl, dc, k);
    InheritedInRange(shifted, toAugment, dl, dc);
    LinksInRange(toAugment, dl, dc);
    SelfEdgesInRange(base, toAugment, dl, dc);
    InRangeAppend(shifted, inherited, dl + k, dc);
    InRangeAppend(shifted + inherited, links, dl + k, dc);
    InRangeAppend(shifted + inherited + links, back, dl + k, dc);
    InRangeAppend(shifted + inherited + links + back, copies, dl + k, dc);
  }

  lemma FaithfulAugmentationWellFormed(base: AdjacencyList, toAugment: seq<nat>, dl: nat, dc: nat)
    requires WellFormed(base, dl, dc)
    requires forall x :: x in toAugment ==> x < dl
    ensures WellFormed(AugFaithful(base, toAugment, dl), dl + |toAugment|, dc)
  {
    var k := |toAugment|;
    var shifted := ShiftTargets(base, dl, k);
    var inherited := AugCond(shifted, toAugment, dl);
    var links, back := LinksIn(toAugment, dl), LinksOut(toAugment, dl);
    FaithfulAugmentationInRange(base, toAugment, dl, dc);
    ShiftedHasSelfLoops(base, dl, k);
    HasSelfLoopsAppend(shifted, inherited, dl);
    HasSelfLoopsAppend(shifted + inherited, links, dl);
    HasSelfLoopsAppend(shifted + inherited + links, back, dl);
    CopiesCompleteSelfLoops(shifted + inherited + links + back, base, toAugment, dl);
  }

  lemma RandomAugmentationInRange(baseRand: AdjacencyList, toAugment: seq<nat>, dl: nat, dc: nat)
    requires InRange(baseRand, dl, dc)
    requires forall x :: x in toAugment ==> x < dl
    ensures InRange(AugRand(baseRand, toAugment, dl), dl + |toAugment|, dc)
  {
    var k := |toAugment|;
    var shifted := ShiftBoth(baseRand, dl, k);
    var links, back, copies := LinksIn(toAugment, dl), LinksOut(toAugment, dl), SelfEdges(baseRand, toAugment, dl);
    ShiftedInRange(baseRand, dl, dc, k);
    LinksInRange(toAugment, dl, dc);
    SelfEdgesInRange(baseRand, toAugment, dl, dc);
    InRangeAppend(shifted, links, dl + k, dc);
    InRangeAppend(shifted + links, back, dl + k, dc);
    InRangeAppend(shifted + links + back, copies, dl + k, dc);
  }

  lemma RandomAugmentationWellFormed(baseRand: AdjacencyList, toAugment: seq<nat>, dl: nat, dc: nat)
    requires WellFormed(baseRand, dl, dc)
    requires forall x :: x in toAugment ==> x < dl
    ensures WellFormed(AugRand(baseRand, toAugment, dl), dl + |toAugment|, dc)
  {
    var k := |toAugment|;
    var shifted := ShiftBoth(baseRand, dl, k);
    var links, back := LinksIn(toAugment, dl), LinksOut(toAugment, dl);
    RandomAugmentationInRange(baseRand, toAugment, dl, dc);
    ShiftedHasSelfLoops(baseRand, dl, k);
    HasSelfLoopsAppend(shifted, links, dl);
    HasSelfLoopsAppend(shifted + links, back, dl);
    CopiesCompleteSelfLoops(shifted + links + back, baseRand, toAugment, dl);
  }

  /** Augmenting a well-formed model by latent variables succeeds, and both
      new lists are well formed for `dl + k` latents and the same conditioning
      variables. */
  lemma AugmentKeepsWellFormed(m: GraphModel, toAugment: seq<nat>)
    requires m.faithful.Some? && WellFormed(m.faithful.value, m.dimLatent, m.dimCondition)
    requires m.rand.Some? && WellFormed(m.rand.value, m.dimLatent, m.dimCondition)
    requires forall x :: x in toAugment ==> x < m.dimLatent
    ensures AugmentSpec(m, toAugment).Ok?
    ensures var a := AugmentSpec(m, toAugment).value;
            a.dimLatent == m.dimLatent + |toAugment| && a.dimCondition == m.dimCondition &&
            WellFormed(a.faithful.value, a.dimLatent, a.dimCondition) &&
            WellFormed(a.rand.value, a.dimLatent, a.dimCondition)
  {
    FaithfulAugmentationWellFormed(m.faithful.value, toAugment, m.dimLatent, m.dimCondition);
    RandomAugmentationWellFormed(m.rand.value, toAugment, m.dimLatent, m.dimCondition);
  }

  /** The random baseline loses its edge count under augmentation: the
      one-dimensional model whose two lists are both `[[0, 0], [0, 1]]`,
      augmented by `[0]`, gets seven faithful edges but only five random
      ones, because inherited edges are added to the faithful list only;
      the inherited edge `[1, 0]` and the link out of the new variable are
      the same pair, so the faithful list holds it twice. */
  lemma AugmentedListsCanDifferInLength()
    ensures var base := [Edge(0, 0), Edge(0, 1)];
            var a := AugmentSpec(GraphModel(1, 1, Some(base), Some(base)), [0]);
            && a.Ok? && |a.value.faithful.value| == 7 && |a.value.rand.value| == 5
            && a.value.faithful.value[2] == a.value.faithful.value[5] == Edge(1, 0)
  {
    var base := [Edge(0, 0), Edge(0, 1)];
    var shifted := ShiftTargets(base, 1, 1);
    assert shifted == [Edge(0, 0), Edge(0, 2)];
    assert EdgesFromUpTo(shifted, 0, 1, 1) == [Edge(1, 0)];
    assert EdgesFromUpTo(shifted, 0, 1, 2) == [Edge(1, 0), Edge(1, 2)];
    assert AugCondUpTo(shifted, [0], 1, 0) == [];
    assert AugCond(shifted, [0], 1) == [Edge(1, 0), Edge(1, 2)];
    assert Linked(base, 0, 0);
    assert SelfEdges(base, [0], 1) == [Edge(1, 1)];
  }

  /** `torch.zeros([rows, cols])` with `[a, b] = 1.0` for every edge, or the
      IndexError of the first edge outside the matrix. */
  method CheckedMatrix(adj: AdjacencyList, rows: nat, cols: nat) returns (r: Result<array2<real>, AugError>)
    ensures r.Err? <==> !Fits(adj, rows, cols)
    ensures r.Err? ==> r.error == IndexOutOfRange
    ensures r.Ok? ==> r.value.Length0 == rows && r.value.Length1 == cols
    ensures r.Ok? ==> forall a, b :: 0 <= a < rows && 0 <= b < cols ==>
                        r.value[a, b] == (if Edge(a, b) in adj then 1.0 else 0.0)
  {
    var n := 0;
    while n < |adj|
      invariant 0 <= n <= |adj|
      invariant forall q :: 0 <= q < n ==> adj[q].src < rows && adj[q].dst < cols
    {
      if adj[n].src >= rows || adj[n].dst >= cols {
        return Err(IndexOutOfRange);
      }
      n := n + 1;
    }
    var m := BuildMask(adj, rows, cols);
    r := Ok(m);
  }

  /** The copy-to-copy comprehension over a 0/1 matrix of `adj`: the pairs are
      visited row by row, and the first index outside the matrix raises. */
  method SelfEdgesOf(mat: array2<real>, adj: AdjacencyList, toAugment: seq<nat>, dl: nat)
    returns (r: Result<AdjacencyList, AugError>)
    requires forall a, b :: 0 <= a < mat.Length0 && 0 <= b < mat.Length1 ==>
               mat[a, b] == (if Edge(a, b) in adj then 1.0 else 0.0)
    ensures r.Err? <==> !IndicesFit(toAugment, mat.Length0, mat.Length1)
    ensures r.Err? ==> r.error == IndexOutOfRange
    ensures r.Ok? ==> r.value == SelfEdges(adj, toAugment, dl)
  {
    var k := |toAugment|;
    var edges: AdjacencyList := [];
    var i := 0;
    while i < k
      invariant 0 <= i <= k
      invariant edges == SelfEdgesBefore(adj, toAugment, dl, i, 0)
      invariant forall q :: 0 <= q < i ==> toAugment[q] < mat.Length0
      invariant i > 0 ==> forall q :: 0 <= q < k ==> toAugment[q] < mat.Length1
    {
      var j := 0;
      while j < k
        invariant 0 <= j <= k
        invariant edges == SelfEdgesBefore(adj, toAugment, dl, i, j)
        invariant forall q :: 0 <= q < j ==> toAugment[q] < mat.Length1
        invariant j > 0 ==> toAugment[i] < mat.Length0
      {
        if toAugment[i] >= mat.Length0 || toAugment[j] >= mat.Length1 {
          assert toAugment[i] in toAugment && toAugment[j] in toAugment;
          return Err(IndexOutOfRange);
        }
        if mat[toAugment[i], toAugment[j]] == 1.0 {
          edges := edges + [Edge(dl + i, dl + j)];
        }
        j := j + 1;
      }
      i := i + 1;
    }
    assert forall x :: x in toAugment ==> x < mat.Length0 && x < mat.Length1 by {
      forall x | x in toAugment ensures x < mat.Length0 && x < mat.Length1 {
        var q :| 0 <= q < k && toAugment[q] == x;
      }
    }
    r := Ok(edges);
  }

  /** The first loop: each faithful edge `[a, b]` must have a latent source
      and its target is shifted past the copies. */
  method ShiftFaithful(base: AdjacencyList, dl: nat, k: nat) returns (r: Result<AdjacencyList, AugError>)
    ensures r.Err? <==> !SourcesLatent(base, dl)
    ensures r.Err? ==> r.error == AssertionFailed
    ensures r.Ok? ==> r.value == ShiftTargets(base, dl, k)
  {
    var shifted: AdjacencyList := [];
    var n := 0;
    while n < |base|
      invariant 0 <= n <= |base|
      invariant forall q :: 0 <= q < n ==> base[q].src < dl
      invariant shifted == ShiftTargets(base[..n], dl, k)
    {
      if base[n].src >= dl {
        return Err(AssertionFailed);
      }
      shifted := shifted + [Edge(base[n].src, Shift(base[n].dst, dl, k))];
      n := n + 1;
    }
    assert base[..n] == base;
    r := Ok(shifted);
  }

  /** The random list's loop: both endpoints shifted. */
  method ShiftRandom(baseRand: AdjacencyList, dl: nat, k: nat) returns (shifted: AdjacencyList)
    ensures shifted == ShiftBoth(baseRand, dl, k)
  {
    shifted := [];
    var n := 0;
    while n < |baseRand|
      invariant 0 <= n <= |baseRand|
      invariant shifted == ShiftBoth(baseRand[..n], dl, k)
    {
      shifted := shifted + [Edge(Shift(baseRand[n].src, dl, k), Shift(baseRand[n].dst, dl, k))];
      n := n + 1;
    }
    assert baseRand[..n] == baseRand;
  }

  /** The inner loop of `augmented_conditioning`: append `[newSrc, b]` for
      every shifted edge `[src, b]`. */
  method AppendInherited(acc: AdjacencyList, shifted: AdjacencyList, src: nat, newSrc: nat)
    returns (out: AdjacencyList)
    ensures out == acc + EdgesFrom(shifted, src, newSrc)
  {
    out := acc;
    var j := 0;
    while j < |shifted|
      invariant 0 <= j <= |shifted|
      invariant out == acc + EdgesFromUpTo(shifted, src, newSrc, j)
    {
      if shifted[j].src == src {
        out := out + [Edge(newSrc, shifted[j].dst)];
      }
      j := j + 1;
    }
  }

  /** The `augmented_conditioning` loops, with `cond_offset` counting up from
      `in_offset - 1`. */
  method InheritEdges(shifted: AdjacencyList, toAugment: seq<nat>, inOffset: nat) returns (augmented: AdjacencyList)
    ensures augmented == AugCond(shifted, toAugment, inOffset)
  {
    augmented := [];
    var condOffset: int := inOffset - 1;
    var idx := 0;
    while idx < |toAugment|
      invariant 0 <= idx <= |toAugment|
      invariant condOffset == inOffset + idx - 1
      invariant augmented == AugCondUpTo(shifted, toAugment, inOffset, idx)
    {
      condOffset := condOffset + 1;
      augmented := AppendInherited(augmented, shifted, toAugment[idx], condOffset);
      idx := idx + 1;
    }
  }

  /** `AugmentedModel.__init__`. */
  method Augment(m: GraphModel, toAugment: seq<nat>) returns (r: Result<GraphModel, AugError>)
    ensures r == AugmentSpec(m, toAugment)
  {
    var dl, dc, k := m.dimLatent, m.dimCondition, |toAugment|;
    if m.faithful.None? {
      return Err(MissingAttribute("faithful_adjacency"));
    }
    var base := m.faithful.value;
    var shifted := ShiftFaithful(base, dl, k);
    if shifted.Err? {
      return Err(shifted.error);
    }
    var fm := CheckedMatrix(base, dl + k, dl + dc);
    if fm.Err? {
      return Err(fm.error);
    }
    var inOffset, outOffset := dl, dl;
    var augmented := InheritEdges(shifted.value, toAugment, inOffset);
    var faithful := shifted.value + augmented;
    faithful := faithful + LinksIn(toAugment, inOffset);
    faithful := faithful + LinksOut(toAugment, outOffset);
    var selfF := SelfEdgesOf(fm.value, base, toAugment, inOffset);
    if selfF.Err? {
      return Err(selfF.error);
    }
    faithful := faithful + selfF.value;

    if m.rand.None? {
      return Err(MissingAttribute("rand_adjacency"));
    }
    var baseRand := m.rand.value;
    var rand := ShiftRandom(baseRand, dl, k);
    var rm := CheckedMatrix(baseRand, dl, dl + dc);
    if rm.Err? {
      return Err(rm.error);
    }
    rand := rand + LinksIn(toAugment, inOffset);
    rand := rand + LinksOut(toAugment, outOffset);
    var selfR := SelfEdgesOf(rm.value, baseRand, toAugment, inOffset);
    if selfR.Err? {
      return Err(selfR.error);
    }
    rand := rand + selfR.value;
    r := Ok(GraphModel(dl + k, dc, Some(faithful), Some(rand)));
  }
}
