/** Cutting a model's layer graph: which cuts are allowed, which layers are needed, and that running
    the pieces one after the other computes what the whole graph computes. */
module ModelGraph {
  import opened Network

  /** A layer: the nodes whose outputs it reads (none: the model input, if it reads anything), and
      what it computes. */
  datatype Node = Node(preds: seq<nat>, takesInput: bool, run: seq<Tensor> -> Tensor)

  type Graph = seq<Node>

  /** Nodes come after what they read; a node that reads the model input reads nothing else; one
      that reads nothing is a constant. */
  ghost predicate Ordered(g: Graph) {
    forall i: nat | i < |g| :: OrderedAt(g, i)
  }

  ghost predicate OrderedAt(g: Graph, i: nat)
    requires i < |g|
  {
    && (forall a | 0 <= a < |g[i].preds| :: g[i].preds[a] < i)
    && (g[i].takesInput ==> g[i].preds == [])
    && (g[i].preds == [] && !g[i].takesInput ==> Constant(g[i]))
  }

  /** The node computes the same whatever it is given. */
  ghost predicate Constant(node: Node) {
    forall x, y :: node.run([x]) == node.run([y])
  }

  predicate Reads(g: Graph, i: nat, p: nat)
    requires i < |g|
  {
    p in g[i].preds
  }

  /** Every node but the last is read by another. */
  ghost predicate Live(g: Graph) {
    forall p: nat | p + 1 < |g| :: HasReader(g, p)
  }

  ghost predicate HasReader(g: Graph, p: nat) {
    exists i: nat | i < |g| :: Reads(g, i, p)
  }

  // ── running the whole graph ──────────────────────────────────────────────────

  /** The output of node `i`. */
  ghost function Value(g: Graph, x: Tensor, i: nat): Tensor
    requires Ordered(g) && i < |g|
    decreases i, 1
  {
    g[i].run(if g[i].preds == [] then [x] else Inputs(g, x, i))
  }

  /** The outputs of the nodes that node `i` reads. */
  ghost function Inputs(g: Graph, x: Tensor, i: nat): (ins: seq<Tensor>)
    requires Ordered(g) && i < |g|
    ensures |ins| == |g[i].preds|
    ensures forall a | 0 <= a < |ins| :: g[i].preds[a] < i && ins[a] == Value(g, x, g[i].preds[a])
    decreases i, 0
  {
    assert OrderedAt(g, i);
    seq(|g[i].preds|, a requires 0 <= a < |g[i].preds| => Value(g, x, g[i].preds[a]))
  }

  /** `run_nodes`. */
  method RunNodes(g: Graph, x: Tensor) returns (outputs: seq<Tensor>)
    requires Ordered(g)
    ensures |outputs| == |g| && forall i | 0 <= i < |g| :: outputs[i] == Value(g, x, i)
  {
    outputs := [];
    for i := 0 to |g|
      invariant |outputs| == i && forall j | 0 <= j < i :: outputs[j] == Value(g, x, j)
    {
      assert OrderedAt(g, i);
      if g[i].preds != [] {
        var ins := seq(|g[i].preds|, a requires 0 <= a < |g[i].preds| => outputs[g[i].preds[a]]);
        assert ins == Inputs(g, x, i);
        outputs := outputs + [g[i].run(ins)];
      } else {
        outputs := outputs + [g[i].run([x])];
      }
    }
  }

  // ── where the graph may be cut ───────────────────────────────────────────────

  /** Node `k` is read by someone, no edge passes over it, and no later node reads the model
      input: its output is all that later nodes need. */
  ghost predicate IsCut(g: Graph, k: nat) {
    && k + 1 < |g|
    && HasReader(g, k)
    && (forall i: nat, p: nat | k < i < |g| && p < k :: !Reads(g, i, p))
    && (forall i: nat | k < i < |g| :: !g[i].takesInput)
  }

  /** The nodes that read node `p`, among the first `k`. */
  function Readers(g: Graph, p: nat, k: nat): (r: seq<nat>)
    requires k <= |g|
    ensures forall i: nat :: i in r <==> i < k && Reads(g, i, p)
  {
    if k == 0 then [] else Readers(g, p, k - 1) + if Reads(g, k - 1, p) then [k - 1] else []
  }

  /** A consumer of a node before `k`, the highest one; -1 if there is none. */
  ghost predicate HighestConsumer(g: Graph, k: nat, m: int) {
    && (forall i: nat, p: nat | i < |g| && p < k && Reads(g, i, p) :: i <= m)
    && (m == -1 || (0 <= m < |g| && exists p: nat | p < k :: Reads(g, m, p)))
  }

  method Highest(succ: seq<nat>) returns (m: nat)
    requires succ != []
    ensures m in succ && forall s | s in succ :: s <= m
  {
    m := succ[0];
    for a := 1 to |succ|
      invariant m in succ && forall b | 0 <= b < a :: succ[b] <= m
    {
      if succ[a] > m { m := succ[a]; }
    }
  }

  lemma HighestNext(g: Graph, k: nat, m: int, succ: seq<nat>, m': int)
    requires k < |g| && HighestConsumer(g, k, m) && succ == Readers(g, k, |g|) && m' >= m
    requires succ == [] ==> m' == m
    requires succ != [] ==> (forall s | s in succ :: s <= m') && (m' == m || m' in succ)
    ensures HighestConsumer(g, k + 1, m')
  {
    forall i: nat, p: nat | i < |g| && p < k + 1 && Reads(g, i, p) ensures i <= m' {
      if p == k { assert i in succ; }
    }
    if m' != m { assert Reads(g, m', k); }
    if m' == m && m != -1 {
      var p: nat :| p < k && Reads(g, m, p);
      assert p < k + 1 && Reads(g, m', p);
    }
  }

  /** `valid_cuts`: one pass over the nodes finds exactly the allowed cuts, in order. */
  method ValidCuts(g: Graph) returns (cuts: seq<nat>)
    requires Ordered(g)
    ensures forall k: nat :: k in cuts <==> IsCut(g, k)
    ensures forall a, b | 0 <= a < b < |cuts| :: cuts[a] < cuts[b]
  {
    var n := |g|;
    var inputAfter := InputAfter(g);
    cuts := [];
    var maxConsumer := -1;
    var k := 0;
    while k + 1 < n
      invariant 0 <= k && (n > 0 ==> k <= n - 1) && HighestConsumer(g, k, maxConsumer)
      invariant forall j: nat :: j in cuts <==> j < k && IsCut(g, j)
      invariant (forall a | 0 <= a < |cuts| :: cuts[a] < k) && forall a, b | 0 <= a < b < |cuts| :: cuts[a] < cuts[b]
    {
      var succ := Readers(g, k, n);
      CutGuard(g, k, maxConsumer, inputAfter[k + 1], succ);
      if maxConsumer <= k && !inputAfter[k + 1] && succ != [] {
        cuts := cuts + [k];
      }
      ghost var before := maxConsumer;
      if succ != [] {
        var m := Highest(succ);
        if m > maxConsumer { maxConsumer := m; }
      }
      HighestNext(g, k, before, succ, maxConsumer);
      k := k + 1;
    }
  }

  /** The first loop of `valid_cuts`: does a node from `i` on read the model input? */
  method InputAfter(g: Graph) returns (after: seq<bool>)
    ensures |after| == |g| + 1
    ensures forall i: nat | i <= |g| :: after[i] <==> exists j: nat | i <= j < |g| :: g[j].takesInput
  {
    after := seq(|g| + 1, i => false);
    var i := |g|;
    while i > 0
      invariant 0 <= i <= |g| && |after| == |g| + 1 && !after[|g|]
      invariant forall m: nat | i <= m <= |g| :: after[m] <==> exists j: nat | m <= j < |g| :: g[j].takesInput
    {
      i := i - 1;
      after := after[i := after[i + 1] || g[i].takesInput];
    }
  }

  lemma CutGuard(g: Graph, k: nat, maxConsumer: int, inputLater: bool, succ: seq<nat>)
    requires Ordered(g) && k + 1 < |g| && HighestConsumer(g, k, maxConsumer) && succ == Readers(g, k, |g|)
    requires inputLater <==> exists j: nat | k + 1 <= j < |g| :: g[j].takesInput
    ensures IsCut(g, k) <==> maxConsumer <= k && !inputLater && succ != []
  {
    if IsCut(g, k) {
      var i: nat :| i < |g| && Reads(g, i, k);
      assert i in succ;
      if maxConsumer != -1 {
        var p: nat :| p < k && Reads(g, maxConsumer, p);
        assert maxConsumer <= k;
      }
    }
    if maxConsumer <= k && !inputLater && succ != [] {
      assert succ[0] in succ;
      assert Reads(g, succ[0], k);
    }
  }

  // ── what the output depends on ───────────────────────────────────────────────

  /** The output of node `last` depends on node `i`. */
  ghost predicate Needed(g: Graph, last: nat, i: nat)
    requires last < |g|
    decreases last - i
  {
    i == last || exists j: nat | i < j <= last :: Reads(g, j, i) && Needed(g, last, j)
  }

  /** The liveness pass: one walk from the last node down finds exactly what the output needs. */
  method LiveNodes(g: Graph, last: nat) returns (live: set<nat>)
    requires Ordered(g) && last < |g|
    ensures forall i: nat :: i in live <==> i <= last && Needed(g, last, i)
  {
    live := {last};
    var i := last + 1;
    while i > 0
      invariant 0 <= i <= last + 1
      invariant forall j: nat :: j in live <==> j <= last && Found(g, last, j, i)
    {
      i := i - 1;
      FoundHere(g, last, i);
      assert OrderedAt(g, i);
      if i in live {
        live := live + (set p | p in g[i].preds);
      }
      forall j: nat ensures j in live <==> j <= last && Found(g, last, j, i) {
        if j <= last { FoundNext(g, last, j, i); }
      }
    }
    forall j: nat | j <= last ensures Found(g, last, j, 0) <==> Needed(g, last, j) { }
  }

  /** Node `j` is the last one, or read by a needed node from `i` on. */
  ghost predicate Found(g: Graph, last: nat, j: nat, i: nat)
    requires last < |g|
  {
    j == last || exists m: nat | i <= m <= last && j < m :: Reads(g, m, j) && Needed(g, last, m)
  }

  lemma FoundHere(g: Graph, last: nat, i: nat)
    requires Ordered(g) && i <= last < |g|
    ensures Found(g, last, i, i + 1) <==> Needed(g, last, i)
  {
  }

  lemma FoundNext(g: Graph, last: nat, j: nat, i: nat)
    requires Ordered(g) && i <= last < |g| && j <= last
    ensures Found(g, last, j, i) <==> Found(g, last, j, i + 1) || (Needed(g, last, i) && Reads(g, i, j))
  {
    assert OrderedAt(g, i);
    if Reads(g, i, j) {
      var a :| 0 <= a < |g[i].preds| && g[i].preds[a] == j;
      assert j < i;
    }
  }
}
