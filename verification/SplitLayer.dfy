/** Slices of a model: how a slice runs its layers, which edges it keeps, and that slices cut at
    allowed places and run one after the other compute what the model computes. */
module SplitLayer {
  import opened Network
  import opened ModelGraph
  import opened Sequences

  // ── one slice ────────────────────────────────────────────────────────────────

  /** The layers of a slice, and for each the layers of the slice it reads, by local index: none if
      it reads the slice's input; -1 stands for that input among several. */
  datatype Slice = Slice(layers: seq<Node>, preds: seq<seq<int>>)

  ghost predicate WellFormedSlice(s: Slice) {
    |s.layers| == |s.preds| > 0 && forall i: nat | i < |s.preds| :: LayerOk(s, i)
  }

  ghost predicate LayerOk(s: Slice, i: nat)
    requires i < |s.preds|
  {
    && (forall a | 0 <= a < |s.preds[i]| :: -1 <= s.preds[i][a] < i)
    && (|s.preds[i]| == 1 ==> s.preds[i][0] >= 0)
  }

  predicate AllEmpty(s: Slice) {
    forall i | 0 <= i < |s.preds| :: s.preds[i] == []
  }

  /** One layer after the other. */
  function Sequential(s: Slice, x: Tensor, k: nat): Tensor
    requires k <= |s.layers|
  {
    if k == 0 then x else s.layers[k - 1].run([Sequential(s, x, k - 1)])
  }

  /** What layer `i` outputs when every layer reads what it should. */
  ghost function Routed(s: Slice, x: Tensor, i: nat): Tensor
    requires WellFormedSlice(s) && i < |s.layers|
    decreases i, 1
  {
    s.layers[i].run(if s.preds[i] == [] then [x] else RoutedInputs(s, x, i))
  }

  ghost function RoutedInputs(s: Slice, x: Tensor, i: nat): (ins: seq<Tensor>)
    requires WellFormedSlice(s) && i < |s.layers|
    ensures |ins| == |s.preds[i]|
    ensures forall a | 0 <= a < |ins| ::
        s.preds[i][a] < i && ins[a] == if s.preds[i][a] >= 0 then Routed(s, x, s.preds[i][a]) else x
    decreases i, 0
  {
    assert LayerOk(s, i);
    seq(|s.preds[i]|, a requires 0 <= a < |s.preds[i]| => if s.preds[i][a] >= 0 then Routed(s, x, s.preds[i][a]) else x)
  }

  /** What layer `i` is fed when the layers before it output `outs`: in a slice where no layer reads
      another the output before it, else the outputs it reads, the slice's input in their place where it
      is marked, and the input alone if it reads none. */
  predicate Fed(s: Slice, x: Tensor, outs: seq<Tensor>, i: nat, ins: seq<Tensor>)
    requires i < |s.preds| && i <= |outs| && forall a | 0 <= a < |s.preds[i]| :: s.preds[i][a] < i
  {
    if AllEmpty(s) then ins == [if i == 0 then x else outs[i - 1]]
    else if s.preds[i] == [] then ins == [x]
    else
      && |ins| == |s.preds[i]|
      && forall a | 0 <= a < |ins| :: ins[a] == if s.preds[i][a] >= 0 then outs[s.preds[i][a]] else x
  }

  /** Layer `i` ran on what it is fed. */
  ghost predicate RanOn(s: Slice, x: Tensor, outs: seq<Tensor>, i: nat, ins: seq<seq<Tensor>>)
    requires WellFormedSlice(s) && i < |outs| == |ins| <= |s.layers|
  {
    assert LayerOk(s, i);
    Fed(s, x, outs, i, ins[i]) && outs[i] == s.layers[i].run(ins[i])
  }

  lemma RanBefore(s: Slice, x: Tensor, outs: seq<Tensor>, ins: seq<seq<Tensor>>, more: seq<Tensor>, y: Tensor)
    requires WellFormedSlice(s) && |outs| == |ins| < |s.layers|
    requires forall i: nat | i < |outs| :: RanOn(s, x, outs, i, ins)
    requires LayerOk(s, |outs|) && Fed(s, x, outs, |outs|, more) && y == s.layers[|outs|].run(more)
    ensures forall i: nat | i <= |outs| :: RanOn(s, x, outs + [y], i, ins + [more])
  {
    forall i: nat | i <= |outs| ensures RanOn(s, x, outs + [y], i, ins + [more]) {
      assert LayerOk(s, i);
      if i < |outs| { assert RanOn(s, x, outs, i, ins); }
    }
  }

  /** `SplitLayer.run`: sequential when no layer reads another, else routed. `outs` are the layers'
      outputs and `ins` what each was run on. */
  method Run(s: Slice, x: Tensor) returns (y: Tensor, ghost outs: seq<Tensor>, ghost ins: seq<seq<Tensor>>)
    requires WellFormedSlice(s)
    ensures y == if AllEmpty(s) then Sequential(s, x, |s.layers|) else Routed(s, x, |s.layers| - 1)
    ensures |outs| == |ins| == |s.layers| && y == outs[|outs| - 1]
    ensures forall i: nat | i < |outs| :: RanOn(s, x, outs, i, ins)
  {
    outs, ins := [], [];
    if AllEmpty(s) {
      y := x;
      for i := 0 to |s.layers|
        invariant |outs| == |ins| == i && y == Sequential(s, x, i) == if i == 0 then x else outs[i - 1]
        invariant forall j: nat | j < i :: RanOn(s, x, outs, j, ins)
      {
        assert LayerOk(s, i);
        var out := s.layers[i].run([y]);
        RanBefore(s, x, outs, ins, [y], out);
        outs, ins := outs + [out], ins + [[y]];
        y := out;
      }
      return;
    }
    var outputs: seq<Tensor> := [];
    for i := 0 to |s.layers|
      invariant |outputs| == i && forall j | 0 <= j < i :: outputs[j] == Routed(s, x, j)
      invariant outs == outputs && |ins| == i && forall j: nat | j < i :: RanOn(s, x, outs, j, ins)
    {
      assert LayerOk(s, i);
      var preds := s.preds[i];
      var more;
      if preds == [] {
        more := [x];
      } else if |preds| == 1 {
        more := [outputs[preds[0]]];
        assert more == RoutedInputs(s, x, i);
      } else {
        more := seq(|preds|, a requires 0 <= a < |preds| => if preds[a] >= 0 then outputs[preds[a]] else x);
        assert more == RoutedInputs(s, x, i);
      }
      var out := s.layers[i].run(more);
      RanBefore(s, x, outs, ins, more, out);
      outputs := outputs + [out];
      outs, ins := outputs, ins + [more];
    }
    y := outputs[|s.layers| - 1];
  }

  // ── slices from cuts ─────────────────────────────────────────────────────────

  /** What node `i` reads inside the slice `lo .. hi`. */
  function LocalPreds(g: Graph, lo: nat, hi: nat, i: nat): (r: seq<int>)
    requires i < |g|
    ensures |r| <= |g[i].preds|
  {
    var preds := g[i].preds;
    if |preds| > 1 then
      seq(|preds|, a requires 0 <= a < |preds| => if lo <= preds[a] <= hi then (preds[a] - lo) as int else -1)
    else if |preds| == 1 && lo <= preds[0] <= hi then [preds[0] - lo]
    else []
  }

  /** The slice of the nodes `lo .. hi`. */
  function SliceOf(g: Graph, lo: nat, hi: nat): Slice
    requires lo <= hi < |g|
  {
    Slice(g[lo..hi + 1], seq(hi + 1 - lo, i requires 0 <= i < hi + 1 - lo => LocalPreds(g, lo, hi, lo + i)))
  }

  /** `_intra_predecessors`. */
  method IntraPredecessors(g: Graph, lo: nat, hi: nat) returns (result: seq<seq<int>>)
    requires lo <= hi < |g|
    ensures result == SliceOf(g, lo, hi).preds
  {
    result := [];
    for i := lo to hi + 1
      invariant |result| == i - lo && forall j | 0 <= j < i - lo :: result[j] == LocalPreds(g, lo, hi, lo + j)
    {
      var preds := g[i].preds;
      var localPreds: seq<int> := [];
      for a := 0 to |preds|
        invariant |preds| > 1 ==> |localPreds| == a && forall b | 0 <= b < a ::
                    localPreds[b] == if lo <= preds[b] <= hi then preds[b] - lo else -1
        invariant |preds| <= 1 ==> localPreds == if a == 1 && lo <= preds[0] <= hi then [preds[0] - lo] else []
      {
        if lo <= preds[a] <= hi {
          localPreds := localPreds + [preds[a] - lo];
        } else if |preds| > 1 {
          localPreds := localPreds + [-1];
        }
      }
      assert localPreds == LocalPreds(g, lo, hi, i);
      result := result + [localPreds];
    }
  }

  /** Where slice `k` starts and ends, for the cuts `cuts`. */
  function First(cuts: seq<nat>, k: nat): nat
    requires k <= |cuts|
  {
    if k == 0 then 0 else cuts[k - 1] + 1
  }

  function Last(g: Graph, cuts: seq<nat>, k: nat): nat
    requires k <= |cuts| && g != []
  {
    if k < |cuts| then cuts[k] else |g| - 1
  }

  ghost predicate AllowedCuts(g: Graph, cuts: seq<nat>) {
    && g != []
    && (forall a | 0 <= a < |cuts| :: IsCut(g, cuts[a]))
    && (forall a, b | 0 <= a < b < |cuts| :: cuts[a] < cuts[b])
  }

  lemma BoundsOk(g: Graph, cuts: seq<nat>, k: nat)
    requires AllowedCuts(g, cuts) && k <= |cuts|
    ensures First(cuts, k) <= Last(g, cuts, k) < |g|
    ensures k > 0 ==> First(cuts, k) == Last(g, cuts, k - 1) + 1 && IsCut(g, First(cuts, k) - 1)
    ensures k < |cuts| ==> IsCut(g, Last(g, cuts, k))
  {
    if k > 0 { assert IsCut(g, cuts[k - 1]); }
    if k < |cuts| { assert IsCut(g, cuts[k]); }
  }

  /** `partitions_from_cuts`. */
  method PartitionsFromCuts(g: Graph, cuts: seq<nat>) returns (slices: seq<Slice>)
    requires AllowedCuts(g, cuts)
    ensures |slices| == |cuts| + 1
    ensures forall k | 0 <= k <= |cuts| ::
        First(cuts, k) <= Last(g, cuts, k) < |g| && slices[k] == SliceOf(g, First(cuts, k), Last(g, cuts, k))
  {
    slices := [];
    for k := 0 to |cuts| + 1
      invariant |slices| == k
      invariant forall j | 0 <= j < k ::
          First(cuts, j) <= Last(g, cuts, j) < |g| && slices[j] == SliceOf(g, First(cuts, j), Last(g, cuts, j))
    {
      BoundsOk(g, cuts, k);
      var lo, hi := First(cuts, k), Last(g, cuts, k);
      var preds := IntraPredecessors(g, lo, hi);
      slices := slices + [Slice(g[lo..hi + 1], preds)];
    }
  }

  lemma SliceWellFormed(g: Graph, lo: nat, hi: nat)
    requires Ordered(g) && lo <= hi < |g|
    ensures WellFormedSlice(SliceOf(g, lo, hi))
  {
    var s := SliceOf(g, lo, hi);
    forall i: nat | i < |s.preds| ensures LayerOk(s, i) {
      assert s.preds[i] == LocalPreds(g, lo, hi, lo + i) && OrderedAt(g, lo + i);
    }
  }

  /** What enters a slice: the model input, or the output of the node before the cut. */
  ghost predicate Enters(g: Graph, x: Tensor, lo: nat, xIn: Tensor)
    requires Ordered(g) && lo < |g|
  {
    if lo == 0 then xIn == x else IsCut(g, lo - 1) && xIn == Value(g, x, lo - 1)
  }

  /** What the slice hands to a layer for the node `p` it reads. */
  ghost function Handed(g: Graph, lo: nat, hi: nat, xIn: Tensor, p: nat): Tensor
    requires lo <= hi < |g| && WellFormedSlice(SliceOf(g, lo, hi)) && p <= hi
  {
    if lo <= p then Routed(SliceOf(g, lo, hi), xIn, p - lo) else xIn
  }

  lemma LocalPredAt(g: Graph, lo: nat, hi: nat, i: nat, k: nat)
    requires Ordered(g) && lo <= i <= hi < |g| && LocalPreds(g, lo, hi, i) != [] && k < |g[i].preds|
    ensures |LocalPreds(g, lo, hi, i)| == |g[i].preds| && g[i].preds[k] < i
    ensures LocalPreds(g, lo, hi, i)[k] == if lo <= g[i].preds[k] then g[i].preds[k] - lo else -1
    ensures SliceOf(g, lo, hi).preds[i - lo] == LocalPreds(g, lo, hi, i)
  {
    assert OrderedAt(g, i);
  }

  /** Input `k` of a layer inside the slice, and in the whole graph. */
  lemma SameInput(g: Graph, x: Tensor, lo: nat, hi: nat, xIn: Tensor, i: nat, k: nat)
    requires Ordered(g) && lo <= i <= hi < |g| && WellFormedSlice(SliceOf(g, lo, hi)) && k < |g[i].preds|
    requires g[i].preds[k] < i
    requires LocalPreds(g, lo, hi, i) != [] && Handed(g, lo, hi, xIn, g[i].preds[k]) == Value(g, x, g[i].preds[k])
    ensures |RoutedInputs(SliceOf(g, lo, hi), xIn, i - lo)| == |g[i].preds|
    ensures RoutedInputs(SliceOf(g, lo, hi), xIn, i - lo)[k] == Inputs(g, x, i)[k]
  {
    hide Value, Routed, LocalPreds, SliceOf, WellFormedSlice, Ordered;
    LocalPredAt(g, lo, hi, i, k);
    SliceSize(g, lo, hi);
  }

  lemma SliceSize(g: Graph, lo: nat, hi: nat)
    requires lo <= hi < |g|
    ensures |SliceOf(g, lo, hi).layers| == hi + 1 - lo
    ensures forall i | lo <= i <= hi :: SliceOf(g, lo, hi).layers[i - lo] == g[i]
  {
  }

  /** Every layer of a slice outputs what it outputs in the whole graph. */
  lemma {:induction false} SliceComputes(g: Graph, x: Tensor, lo: nat, hi: nat, xIn: Tensor, i: nat)
    requires Ordered(g) && lo <= i <= hi < |g| && Enters(g, x, lo, xIn)
    ensures WellFormedSlice(SliceOf(g, lo, hi)) && |SliceOf(g, lo, hi).layers| == hi + 1 - lo
    ensures Routed(SliceOf(g, lo, hi), xIn, i - lo) == Value(g, x, i)
    decreases i
  {
    hide Value, Routed, SliceOf, LocalPreds, IsCut, WellFormedSlice, Enters, Inputs, RoutedInputs;
    SliceWellFormed(g, lo, hi);
    SliceSize(g, lo, hi);
    assert OrderedAt(g, i);
    forall k: nat | k < |g[i].preds|
      ensures g[i].preds[k] < i && Handed(g, lo, hi, xIn, g[i].preds[k]) == Value(g, x, g[i].preds[k])
    {
      if lo <= g[i].preds[k] {
        SliceComputes(g, x, lo, hi, xIn, g[i].preds[k]);
      } else {
        OnlyCutNode(g, x, lo, xIn, i, k);
      }
    }
    SameRun(g, x, lo, hi, xIn, i);
  }

  lemma SameRun(g: Graph, x: Tensor, lo: nat, hi: nat, xIn: Tensor, i: nat)
    requires Ordered(g) && lo <= i <= hi < |g| && Enters(g, x, lo, xIn) && WellFormedSlice(SliceOf(g, lo, hi))
    requires forall k: nat | k < |g[i].preds| ::
        g[i].preds[k] < i && Handed(g, lo, hi, xIn, g[i].preds[k]) == Value(g, x, g[i].preds[k])
    ensures |SliceOf(g, lo, hi).layers| == hi + 1 - lo
    ensures Routed(SliceOf(g, lo, hi), xIn, i - lo) == Value(g, x, i)
  {
    hide Value, Routed, SliceOf, LocalPreds, WellFormedSlice, Enters, Handed, Ordered, Inputs, RoutedInputs;
    SliceSize(g, lo, hi);
    if g[i].preds == [] {
      NoReads(g, x, lo, hi, xIn, i);
    } else if LocalPreds(g, lo, hi, i) == [] {
      OneRead(g, x, lo, hi, xIn, i);
    } else {
      var s := SliceOf(g, lo, hi);
      LocalPredAt(g, lo, hi, i, 0);
      forall k: nat | k < |g[i].preds|
        ensures |RoutedInputs(s, xIn, i - lo)| == |g[i].preds| && RoutedInputs(s, xIn, i - lo)[k] == Inputs(g, x, i)[k]
      {
        SameInput(g, x, lo, hi, xIn, i, k);
      }
      assert RoutedInputs(s, xIn, i - lo) == Inputs(g, x, i);
      RoutedIs(s, xIn, i - lo);
      ValueIs(g, x, i);
    }
  }

  lemma RoutedIs(s: Slice, x: Tensor, i: nat)
    requires WellFormedSlice(s) && i < |s.layers| && s.preds[i] != []
    ensures Routed(s, x, i) == s.layers[i].run(RoutedInputs(s, x, i))
  {
  }

  lemma ValueIs(g: Graph, x: Tensor, i: nat)
    requires Ordered(g) && i < |g| && g[i].preds != []
    ensures Value(g, x, i) == g[i].run(Inputs(g, x, i))
  {
  }

  /** A layer that reads no node: the model input, which only the first slice has, or a constant. */
  lemma NoReads(g: Graph, x: Tensor, lo: nat, hi: nat, xIn: Tensor, i: nat)
    requires Ordered(g) && lo <= i <= hi < |g| && Enters(g, x, lo, xIn) && WellFormedSlice(SliceOf(g, lo, hi))
    requires g[i].preds == []
    ensures |SliceOf(g, lo, hi).layers| == hi + 1 - lo
    ensures Routed(SliceOf(g, lo, hi), xIn, i - lo) == Value(g, x, i)
  {
    hide Value, Routed, Inputs, RoutedInputs;
    assert OrderedAt(g, i);
    SliceSize(g, lo, hi);
    assert SliceOf(g, lo, hi).preds[i - lo] == LocalPreds(g, lo, hi, i);
    LeafIs(g, x, i);
    RoutedLeafIs(SliceOf(g, lo, hi), xIn, i - lo);
  }

  lemma LeafIs(g: Graph, x: Tensor, i: nat)
    requires Ordered(g) && i < |g| && g[i].preds == []
    ensures Value(g, x, i) == g[i].run([x])
  {
  }

  lemma RoutedLeafIs(s: Slice, x: Tensor, i: nat)
    requires WellFormedSlice(s) && i < |s.layers| && s.preds[i] == []
    ensures Routed(s, x, i) == s.layers[i].run([x])
  {
  }

  /** A layer whose one input comes from before the slice. */
  lemma OneRead(g: Graph, x: Tensor, lo: nat, hi: nat, xIn: Tensor, i: nat)
    requires Ordered(g) && lo <= i <= hi < |g| && WellFormedSlice(SliceOf(g, lo, hi))
    requires g[i].preds != [] && LocalPreds(g, lo, hi, i) == []
    requires g[i].preds[0] < i && Handed(g, lo, hi, xIn, g[i].preds[0]) == Value(g, x, g[i].preds[0])
    ensures |SliceOf(g, lo, hi).layers| == hi + 1 - lo
    ensures Routed(SliceOf(g, lo, hi), xIn, i - lo) == Value(g, x, i)
  {
    SliceSize(g, lo, hi);
    assert SliceOf(g, lo, hi).preds[i - lo] == LocalPreds(g, lo, hi, i);
    ValueIs(g, x, i);
    hide Value;
    assert Inputs(g, x, i) == [xIn];
  }

  /** An edge into a slice from before it comes from the node the cut is after, whose output is
      what enters the slice. */
  lemma OnlyCutNode(g: Graph, x: Tensor, lo: nat, xIn: Tensor, i: nat, k: nat)
    requires Ordered(g) && 0 < lo <= i < |g| && Enters(g, x, lo, xIn) && k < |g[i].preds| && g[i].preds[k] < lo
    ensures xIn == Value(g, x, g[i].preds[k])
  {
    hide Value;
    assert Reads(g, i, g[i].preds[k]);
  }

  /** In a slice in which no layer reads another there is one layer: the sequential path is taken
      only where it is right. */
  lemma AllEmptyIsOne(g: Graph, lo: nat, hi: nat)
    requires Ordered(g) && Live(g) && lo <= hi < |g| && (hi == |g| - 1 || IsCut(g, hi))
    requires AllEmpty(SliceOf(g, lo, hi))
    ensures lo == hi
  {
    if lo < hi {
      assert HasReader(g, lo);
      var i: nat :| i < |g| && Reads(g, i, lo);
      assert OrderedAt(g, i);
      ReadInside(g, lo, hi, i, lo);
    }
  }

  lemma ReadInside(g: Graph, lo: nat, hi: nat, i: nat, p: nat)
    requires Ordered(g) && lo <= hi < |g| && i < |g| && lo <= p <= hi && Reads(g, i, p) && lo < i
    ensures i <= hi ==> SliceOf(g, lo, hi).preds[i - lo] != []
  {
    if i <= hi { assert SliceOf(g, lo, hi).preds[i - lo] == LocalPreds(g, lo, hi, i); }
  }

  /** A slice cut at allowed places outputs the value of its last node. */
  lemma SliceOutput(g: Graph, x: Tensor, lo: nat, hi: nat, xIn: Tensor)
    requires Ordered(g) && Live(g) && lo <= hi < |g| && (hi == |g| - 1 || IsCut(g, hi)) && Enters(g, x, lo, xIn)
    ensures var s := SliceOf(g, lo, hi);
      && WellFormedSlice(s) && (AllEmpty(s) ==> Sequential(s, xIn, |s.layers|) == Value(g, x, hi))
      && Routed(s, xIn, |s.layers| - 1) == Value(g, x, hi)
  {
    SliceComputes(g, x, lo, hi, xIn, hi);
    var s := SliceOf(g, lo, hi);
    if AllEmpty(s) {
      AllEmptyIsOne(g, lo, hi);
      assert Sequential(s, xIn, 0) == xIn;
      assert s.preds[0] == [];
    }
  }

  /** Slicing preserves meaning: for any live graph and any increasing list of allowed cuts, running
      the slices one after the other on the input gives the model's output. */
  method RunSlices(g: Graph, cuts: seq<nat>, x: Tensor) returns (y: Tensor)
    requires Ordered(g) && Live(g) && AllowedCuts(g, cuts)
    ensures y == Value(g, x, |g| - 1)
  {
    hide Value, Routed, SliceOf, Sequential, IsCut, AllEmpty, Ordered, Live;
    var slices := PartitionsFromCuts(g, cuts);
    y := x;
    for k := 0 to |slices|
      invariant k == 0 ==> y == x
      invariant k > 0 ==> y == Value(g, x, Last(g, cuts, k - 1))
    {
      BoundsOk(g, cuts, k);
      SliceOutput(g, x, First(cuts, k), Last(g, cuts, k), y);
      ghost var outs, ins;
      y, outs, ins := Run(slices[k], y);
    }
  }

  // ── dropping what the output does not need ───────────────────────────────────

  /** The nodes `kept` of `g`, renumbered. */
  ghost predicate Keeps(g: Graph, kept: seq<nat>) {
    && (forall a | 0 <= a < |kept| :: kept[a] < |g|)
    && (forall a, b | 0 <= a < b < |kept| :: kept[a] < kept[b])
    && (forall a, p | 0 <= a < |kept| && p in g[kept[a]].preds :: p in kept)
  }

  ghost function Pruned(g: Graph, kept: seq<nat>): (h: Graph)
    requires Keeps(g, kept)
    ensures |h| == |kept|
  {
    seq(|kept|, a requires 0 <= a < |kept| => RenumberedNode(g, kept, a))
  }

  ghost function RenumberedNode(g: Graph, kept: seq<nat>, a: nat): Node
    requires Keeps(g, kept) && a < |kept|
  {
    var node := g[kept[a]];
    node.(preds := seq(|node.preds|, b requires 0 <= b < |node.preds| =>
                         assert node.preds[b] in node.preds; IndexOf(kept, node.preds[b])))
  }

  lemma PrunedOrdered(g: Graph, kept: seq<nat>)
    requires Ordered(g) && Keeps(g, kept)
    ensures Ordered(Pruned(g, kept))
  {
    var h := Pruned(g, kept);
    forall i: nat | i < |h| ensures OrderedAt(h, i) {
      var node := g[kept[i]];
      assert h[i] == RenumberedNode(g, kept, i) && OrderedAt(g, kept[i]);
      forall a | 0 <= a < |node.preds| ensures h[i].preds[a] < i {
        assert node.preds[a] in node.preds;
        Increasing(kept, i, h[i].preds[a]);
      }
    }
  }

  /** Dropping nodes that none of the kept ones reads changes no kept value. */
  lemma {:induction false} PrunedValue(g: Graph, kept: seq<nat>, x: Tensor, a: nat)
    requires Ordered(g) && Keeps(g, kept) && a < |kept|
    ensures Ordered(Pruned(g, kept)) && Value(Pruned(g, kept), x, a) == Value(g, x, kept[a])
    decreases a
  {
    PrunedOrdered(g, kept);
    var h, node := Pruned(g, kept), g[kept[a]];
    assert h[a] == RenumberedNode(g, kept, a) && OrderedAt(h, a) && OrderedAt(g, kept[a]);
    forall b | 0 <= b < |node.preds| ensures Value(h, x, h[a].preds[b]) == Value(g, x, node.preds[b]) {
      assert node.preds[b] in node.preds && h[a].preds[b] < a;
      PrunedValue(g, kept, x, h[a].preds[b]);
    }
    if node.preds != [] { assert Inputs(h, x, a) == Inputs(g, x, kept[a]); }
  }

  /** Keeping exactly what the output depends on keeps the output, and leaves a live graph. */
  lemma PruningKeepsOutput(g: Graph, last: nat, kept: seq<nat>, x: Tensor)
    requires Ordered(g) && last < |g| && (forall a, b | 0 <= a < b < |kept| :: kept[a] < kept[b])
    requires forall i: nat :: i in kept <==> i <= last && Needed(g, last, i)
    ensures Keeps(g, kept) && kept != [] && kept[|kept| - 1] == last
    ensures Ordered(Pruned(g, kept)) && Live(Pruned(g, kept))
    ensures Value(Pruned(g, kept), x, |kept| - 1) == Value(g, x, last)
  {
    hide Value, Pruned, IndexOf;
    forall a | 0 <= a < |kept| ensures kept[a] <= last { assert kept[a] in kept; }
    forall a, p | 0 <= a < |kept| && p in g[kept[a]].preds ensures p in kept {
      assert kept[a] in kept && Reads(g, kept[a], p) && OrderedAt(g, kept[a]);
    }
    assert last in kept;
    LastKept(kept, last);
    PrunedValue(g, kept, x, |kept| - 1);
    forall q: nat | q + 1 < |kept| ensures HasReader(Pruned(g, kept), q) { PrunedRead(g, last, kept, q); }
  }

  lemma LastKept(kept: seq<nat>, last: nat)
    requires last in kept && (forall i | i in kept :: i <= last)
    requires (forall a, b | 0 <= a < b < |kept| :: kept[a] < kept[b])
    ensures kept[|kept| - 1] == last
  {
    var a :| 0 <= a < |kept| && kept[a] == last;
    assert kept[|kept| - 1] in kept;
  }

  lemma PrunedRead(g: Graph, last: nat, kept: seq<nat>, q: nat)
    requires Ordered(g) && last < |g| && Keeps(g, kept) && q + 1 < |kept| && kept[|kept| - 1] == last
    requires forall i: nat :: i in kept <==> i <= last && Needed(g, last, i)
    ensures HasReader(Pruned(g, kept), q)
  {
    var p, h := kept[q], Pruned(g, kept);
    assert p in kept && kept[q] < kept[|kept| - 1];
    var j: nat :| p < j <= last && Reads(g, j, p) && Needed(g, last, j);
    assert j in kept;
    var a := IndexOf(kept, j);
    var b :| 0 <= b < |g[j].preds| && g[j].preds[b] == p;
    assert h[a] == RenumberedNode(g, kept, a);
    SamePosition(kept, q);
    assert h[a].preds[b] == q;
    assert Reads(h, a, q);
  }

  lemma Increasing(kept: seq<nat>, a: nat, b: nat)
    requires a < |kept| && b < |kept| && forall a, b | 0 <= a < b < |kept| :: kept[a] < kept[b]
    ensures a < b ==> kept[a] < kept[b]
  {
  }

  lemma SamePosition(kept: seq<nat>, q: nat)
    requires q < |kept| && forall a, b | 0 <= a < b < |kept| :: kept[a] < kept[b]
    ensures kept[q] in kept && IndexOf(kept, kept[q]) == q
  {
    Increasing(kept, q, IndexOf(kept, kept[q]));
    Increasing(kept, IndexOf(kept, kept[q]), q);
  }
}
