/** Splitting sample indices across clients: cuts, near-equal splits, shards, and whole groups placed
    greedily. What the random generator draws is a parameter. */
module Partition {
  import opened Wrappers
  import Arithmetic

  datatype Result<T> = Ok(value: T) | Err(error: Error)
  datatype Error =
    | UnknownPartitioner | NoClients | FewerSamplesThanClients | BadConcentration | NoSplitFound
    | NoShards | TooManyShards | GroupsMissing | GroupsMismatch | FewerGroupsThanClients

  // ── what is dealt out ────────────────────────────────────────────────────────

  /** All indices dealt out, with how often each is. */
  function Bag<T(==)>(parts: seq<seq<T>>): multiset<T> {
    if parts == [] then multiset{} else multiset(parts[0]) + Bag(parts[1..])
  }

  function Range(n: nat): (s: seq<nat>)
    ensures |s| == n
  {
    if n == 0 then [] else Range(n - 1) + [n - 1]
  }

  /** Each of `0 .. n - 1` is dealt out once. */
  ghost predicate Exact(parts: seq<seq<nat>>, n: nat) {
    Bag(parts) == multiset(Range(n))
  }

  ghost predicate Shuffle(s: seq<nat>, n: nat) {
    multiset(s) == multiset(Range(n))
  }

  lemma {:induction false} InRange(n: nat, i: nat)
    ensures multiset(Range(n))[i] == if i < n then 1 else 0
  {
    if n > 0 {
      InRange(n - 1, i);
    }
  }

  lemma {:induction false} BagAt<T>(parts: seq<seq<T>>, k: nat)
    requires k < |parts|
    ensures Bag(parts) == multiset(parts[k]) + Bag(parts[..k] + parts[k + 1..])
  {
    if k == 0 {
      assert parts[..0] + parts[1..] == parts[1..];
    } else {
      BagAt(parts[1..], k - 1);
      var others := parts[..k] + parts[k + 1..];
      assert others[0] == parts[0] && others[1..] == parts[1..][..k - 1] + parts[1..][k..];
    }
  }

  /** Dealt out once means held by one client, who holds it once. */
  lemma HeldByOne(parts: seq<seq<nat>>, n: nat, i: nat, k: nat, m: nat)
    requires Exact(parts, n) && k < |parts| && m < |parts|
    requires i in parts[k] && i in parts[m]
    ensures k == m && i < n && multiset(parts[k])[i] == 1
  {
    InRange(n, i);
    BagAt(parts, k);
    if k != m {
      var others := parts[..k] + parts[k + 1..];
      var m' := if m < k then m else m - 1;
      assert others[m'] == parts[m];
      BagAt(others, m');
    }
  }

  lemma {:induction false} HeldBySome(parts: seq<seq<nat>>, i: nat) returns (k: nat)
    requires i in Bag(parts)
    ensures k < |parts| && i in parts[k]
  {
    if i in parts[0] {
      k := 0;
    } else {
      var j := HeldBySome(parts[1..], i);
      k := j + 1;
    }
  }

  /** Every sample goes to exactly one client. */
  lemma ExactlyOneClient(parts: seq<seq<nat>>, n: nat, i: nat) returns (k: nat)
    requires Exact(parts, n) && i < n
    ensures k < |parts| && forall m | 0 <= m < |parts| :: i in parts[m] <==> m == k
  {
    InRange(n, i);
    k := HeldBySome(parts, i);
    forall m | 0 <= m < |parts| && i in parts[m] ensures m == k {
      HeldByOne(parts, n, i, m, k);
    }
  }

  // ── cutting an array ─────────────────────────────────────────────────────────

  function Clip(b: nat, n: nat): nat {
    if b < n then b else n
  }

  /** `s[lo:hi]`. */
  function Slice(s: seq<nat>, lo: nat, hi: nat): seq<nat> {
    var a, b := Clip(lo, |s|), Clip(hi, |s|);
    if a <= b then s[a..b] else []
  }

  /** `np.split` from position `from` on. */
  function Split(s: seq<nat>, from: nat, bounds: seq<nat>): (parts: seq<seq<nat>>)
    ensures |parts| == |bounds| + 1
    decreases bounds
  {
    if bounds == [] then [Slice(s, from, |s|)]
    else [Slice(s, from, bounds[0])] + Split(s, bounds[0], bounds[1..])
  }

  predicate StepUp(from: nat, bounds: seq<nat>, k: nat)
    requires k < |bounds|
  {
    (if k == 0 then from else bounds[k - 1]) <= bounds[k]
  }

  predicate Ascending(from: nat, bounds: seq<nat>) {
    forall k | 0 <= k < |bounds| :: StepUp(from, bounds, k)
  }

  lemma {:induction false} SplitExact(s: seq<nat>, from: nat, bounds: seq<nat>)
    requires Ascending(from, bounds)
    ensures Bag(Split(s, from, bounds)) == multiset(s[Clip(from, |s|)..])
    decreases bounds
  {
    var a := Clip(from, |s|);
    if bounds == [] {
      assert s[a..|s|] == s[a..];
    } else {
      assert StepUp(from, bounds, 0);
      var b := Clip(bounds[0], |s|);
      forall k | 0 <= k < |bounds[1..]| ensures StepUp(bounds[0], bounds[1..], k) {
        assert StepUp(from, bounds, k + 1);
      }
      SplitExact(s, bounds[0], bounds[1..]);
      assert s[a..] == s[a..b] + s[b..];
    }
  }

  lemma {:induction false} SplitAt(s: seq<nat>, from: nat, bounds: seq<nat>, k: nat)
    requires k <= |bounds|
    ensures Split(s, from, bounds)[k]
      == Slice(s, if k == 0 then from else bounds[k - 1], if k == |bounds| then |s| else bounds[k])
    decreases bounds
  {
    if k > 0 {
      SplitAt(s, bounds[0], bounds[1..], k - 1);
    }
  }

  // ── parts proportional to shares ─────────────────────────────────────────────

  function Cumulative(shares: seq<real>, k: nat): real
    requires k <= |shares|
  {
    if k == 0 then 0.0 else Cumulative(shares, k - 1) + shares[k - 1]
  }

  ghost predicate Shares(shares: seq<real>, n: nat) {
    |shares| == n && forall k | 0 <= k < n :: shares[k] >= 0.0
  }

  lemma {:induction false} CumulativeSign(shares: seq<real>, k: nat)
    requires Shares(shares, |shares|) && k <= |shares|
    ensures Cumulative(shares, k) >= 0.0
  {
    if k > 0 {
      CumulativeSign(shares, k - 1);
    }
  }

  lemma Scale(a: real, b: real, n: nat)
    requires b >= 0.0
    ensures (a + b) * n as real == a * n as real + b * n as real && b * n as real >= 0.0
  {
  }

  /** `cumsum(shares) * n`, truncated. */
  function Bound(shares: seq<real>, n: nat, k: nat): nat
    requires Shares(shares, |shares|) && k <= |shares|
  {
    CumulativeSign(shares, k);
    Scale(0.0, Cumulative(shares, k), n);
    (Cumulative(shares, k) * n as real).Floor
  }

  lemma FloorGap(a: real, d: real)
    requires d >= 0.0
    ensures a.Floor <= (a + d).Floor && d - 1.0 < ((a + d).Floor - a.Floor) as real < d + 1.0
  {
  }

  lemma BoundGap(shares: seq<real>, n: nat, k: nat)
    requires Shares(shares, |shares|) && k < |shares|
    ensures var gap := Bound(shares, n, k + 1) - Bound(shares, n, k);
      gap >= 0 && shares[k] * n as real - 1.0 < gap as real < shares[k] * n as real + 1.0
  {
    Scale(Cumulative(shares, k), shares[k], n);
    FloorGap(Cumulative(shares, k) * n as real, shares[k] * n as real);
  }

  function Bounds(shares: seq<real>, n: nat): (bounds: seq<nat>)
    requires Shares(shares, |shares|) && shares != []
    ensures |bounds| == |shares| - 1
  {
    seq(|shares| - 1, k requires 0 <= k < |shares| - 1 => Bound(shares, n, k + 1))
  }

  /** `_cut`. */
  function Cut(idx: seq<nat>, shares: seq<real>): (parts: seq<seq<nat>>)
    requires Shares(shares, |shares|) && shares != []
    ensures |parts| == |shares|
  {
    Split(idx, 0, Bounds(shares, |idx|))
  }

  /** However the shares fall, nothing is lost or dealt twice. */
  lemma CutExact(idx: seq<nat>, shares: seq<real>)
    requires Shares(shares, |shares|) && shares != []
    ensures Bag(Cut(idx, shares)) == multiset(idx)
  {
    var bounds := Bounds(shares, |idx|);
    forall k | 0 <= k < |bounds| ensures StepUp(0, bounds, k) {
      BoundGap(shares, |idx|, k);
    }
    SplitExact(idx, 0, bounds);
    assert idx[0..] == idx;
  }

  lemma {:induction false} CumulativeMonotone(shares: seq<real>, k: nat, m: nat)
    requires Shares(shares, |shares|) && k <= m <= |shares|
    ensures Cumulative(shares, k) <= Cumulative(shares, m)
  {
    if k < m {
      CumulativeMonotone(shares, k, m - 1);
    }
  }

  lemma BoundInside(shares: seq<real>, n: nat, k: nat)
    requires Shares(shares, |shares|) && k <= |shares| && Cumulative(shares, |shares|) == 1.0
    ensures Bound(shares, n, k) <= n && (k == |shares| ==> Bound(shares, n, k) == n)
  {
    CumulativeMonotone(shares, k, |shares|);
    var c := Cumulative(shares, k);
    Scale(c, 1.0 - c, n);
  }

  lemma CutSize(idx: seq<nat>, shares: seq<real>, k: nat)
    requires Shares(shares, |shares|) && k < |shares| && Cumulative(shares, |shares|) == 1.0
    ensures |Cut(idx, shares)[k]| == Bound(shares, |idx|, k + 1) - Bound(shares, |idx|, k)
  {
    var n := |idx|;
    BoundGap(shares, n, k);
    BoundInside(shares, n, k);
    BoundInside(shares, n, k + 1);
    assert Bound(shares, n, 0) == 0;
    SplitAt(idx, 0, Bounds(shares, n), k);
    hide Bound, Cumulative, Shares, Split;
  }

  /** Each client's part is its share of the samples, to within one sample. */
  lemma CutProportional(idx: seq<nat>, shares: seq<real>, k: nat)
    requires Shares(shares, |shares|) && k < |shares| && Cumulative(shares, |shares|) == 1.0
    ensures var size := |Cut(idx, shares)[k]| as real;
      shares[k] * |idx| as real - 1.0 < size < shares[k] * |idx| as real + 1.0
  {
    CutSize(idx, shares, k);
    BoundGap(shares, |idx|, k);
    hide Bound, Cumulative, Cut;
  }

  /** Rounded down. */
  lemma BoundRounds(shares: seq<real>, n: nat, k: nat)
    requires Shares(shares, |shares|) && k <= |shares|
    ensures Bound(shares, n, k) as real <= Cumulative(shares, k) * n as real < Bound(shares, n, k) as real + 1.0
  {
  }

  /** Part `k` runs from the first `k` shares' part of the samples to that of one share more, both rounded
      down; the last part takes the rest. */
  lemma CutAt(idx: seq<nat>, shares: seq<real>, k: nat)
    requires Shares(shares, |shares|) && k < |shares|
    ensures var lo := Clip(Bound(shares, |idx|, k), |idx|);
      var hi := if k + 1 == |shares| then |idx| else Clip(Bound(shares, |idx|, k + 1), |idx|);
      lo <= hi && Cut(idx, shares)[k] == idx[lo..hi]
  {
    BoundGap(shares, |idx|, k);
    assert Bound(shares, |idx|, 0) == 0;
    SplitAt(idx, 0, Bounds(shares, |idx|), k);
    hide Split, Cumulative, Bound;
  }

  // ── near-equal parts ─────────────────────────────────────────────────────────

  /** Where part `k` of `np.array_split` begins: the first `n % m` parts have one element more. */
  function Section(n: nat, m: nat, k: nat): nat
    requires m > 0
  {
    k * (n / m) + Clip(k, n % m)
  }

  lemma SectionStep(n: nat, m: nat, k: nat)
    requires m > 0
    ensures Section(n, m, k + 1) == Section(n, m, k) + n / m + if k < n % m then 1 else 0
  {
  }

  lemma SectionEnd(n: nat, m: nat)
    requires m > 0
    ensures Section(n, m, 0) == 0 && Section(n, m, m) == n
  {
  }

  function ArraySplit(s: seq<nat>, m: nat): (parts: seq<seq<nat>>)
    requires m > 0
    ensures |parts| == m
  {
    Split(s, 0, seq(m - 1, k requires 0 <= k < m - 1 => Section(|s|, m, k + 1)))
  }

  lemma {:induction false} SectionMonotone(n: nat, m: nat, k: nat, l: nat)
    requires m > 0 && k <= l
    ensures Section(n, m, k) <= Section(n, m, l)
  {
    if k < l {
      SectionMonotone(n, m, k, l - 1);
      SectionStep(n, m, l - 1);
    }
  }

  lemma ArraySplitExact(s: seq<nat>, m: nat)
    requires m > 0
    ensures Bag(ArraySplit(s, m)) == multiset(s)
  {
    var bounds := seq(m - 1, k requires 0 <= k < m - 1 => Section(|s|, m, k + 1));
    forall k | 0 <= k < |bounds| ensures StepUp(0, bounds, k) {
      SectionStep(|s|, m, k);
    }
    SplitExact(s, 0, bounds);
    assert s[0..] == s;
  }

  lemma ArraySplitPart(s: seq<nat>, m: nat, k: nat)
    requires k < m
    ensures |ArraySplit(s, m)[k]| == Section(|s|, m, k + 1) - Section(|s|, m, k)
  {
    SectionEnd(|s|, m);
    SectionMonotone(|s|, m, k, k + 1);
    SectionMonotone(|s|, m, k + 1, m);
    SplitAt(s, 0, seq(m - 1, k requires 0 <= k < m - 1 => Section(|s|, m, k + 1)), k);
    hide Section, Split;
  }

  /** Near-equal: no two parts differ by more than one. */
  lemma ArraySplitSizes(s: seq<nat>, m: nat, k: nat)
    requires k < m
    ensures |ArraySplit(s, m)[k]| == |s| / m + if k < |s| % m then 1 else 0
  {
    ArraySplitPart(s, m, k);
    SectionStep(|s|, m, k);
    hide Section, ArraySplit;
  }

  // ── the samples of one class or group ────────────────────────────────────────

  /** `np.flatnonzero(ids == g)`. */
  function Members(ids: seq<int>, g: int): (idx: seq<nat>)
    ensures |idx| <= |ids|
  {
    if ids == [] then []
    else
      var n: nat := |ids| - 1;
      Members(ids[..n], g) + if ids[n] == g then [n] else []
  }

  lemma {:induction false} MembersAre(ids: seq<int>, g: int, i: nat)
    ensures i in Members(ids, g) <==> i < |ids| && ids[i] == g
  {
    if ids != [] {
      MembersAre(ids[..|ids| - 1], g, i);
    }
  }

  function MembersOf(ids: seq<int>, gs: seq<int>): multiset<nat> {
    if gs == [] then multiset{} else MembersOf(ids, gs[..|gs| - 1]) + multiset(Members(ids, gs[|gs| - 1]))
  }

  ghost predicate Distinct(gs: seq<int>) {
    forall a, b | 0 <= a < b < |gs| :: gs[a] != gs[b]
  }

  /** The list has every value of `ids` once: `np.unique`, in some order. */
  ghost predicate Lists(gs: seq<int>, ids: seq<int>) {
    && Distinct(gs)
    && (forall g | g in gs :: g in ids)
    && (forall i | 0 <= i < |ids| :: ids[i] in gs)
  }

  lemma {:induction false} MembersOnce(ids: seq<int>, g: int, i: nat)
    ensures multiset(Members(ids, g))[i] == if i < |ids| && ids[i] == g then 1 else 0
  {
    if ids != [] {
      var n: nat := |ids| - 1;
      MembersOnce(ids[..n], g, i);
      var before := Members(ids[..n], g);
      assert ids[n] == g ==> multiset(Members(ids, g)) == multiset(before) + multiset([n]);
      assert ids[n] != g ==> Members(ids, g) == before;
    }
  }

  lemma {:induction false} MembersOfAt(ids: seq<int>, gs: seq<int>, i: nat)
    requires Distinct(gs)
    ensures MembersOf(ids, gs)[i] == if i < |ids| && ids[i] in gs then 1 else 0
  {
    if gs != [] {
      var n := |gs| - 1;
      assert Distinct(gs[..n]) && gs[n] !in gs[..n] && gs == gs[..n] + [gs[n]];
      hide Distinct;
      MembersOfAt(ids, gs[..n], i);
      MembersOnce(ids, gs[n], i);
    }
  }

  /** The classes, or the groups, together hold every sample once. */
  lemma MembersOfAll(ids: seq<int>, gs: seq<int>)
    requires Lists(gs, ids)
    ensures MembersOf(ids, gs) == multiset(Range(|ids|))
  {
    forall i: nat ensures MembersOf(ids, gs)[i] == multiset(Range(|ids|))[i] {
      MembersOfAt(ids, gs, i);
      InRange(|ids|, i);
    }
  }

  // ── label skew ───────────────────────────────────────────────────────────────

  /** For one class: its samples shuffled, and the shares of the clients. */
  datatype ClassDraw = ClassDraw(class_: int, idx: seq<nat>, shares: seq<real>)

  ghost predicate SoundDraw(labels: seq<int>, n: nat, d: ClassDraw) {
    multiset(d.idx) == multiset(Members(labels, d.class_)) && Shares(d.shares, n)
  }

  /** One try: every class drawn for once. */
  ghost predicate SoundTry(labels: seq<int>, n: nat, draws: seq<ClassDraw>) {
    && Lists(ClassesOf(draws), labels)
    && forall c | 0 <= c < |draws| :: SoundDraw(labels, n, draws[c])
  }

  function ClassesOf(draws: seq<ClassDraw>): (gs: seq<int>)
    ensures |gs| == |draws|
  {
    if draws == [] then [] else ClassesOf(draws[..|draws| - 1]) + [draws[|draws| - 1].class_]
  }

  function Empties<T(==)>(n: nat): (parts: seq<seq<T>>)
    ensures |parts| == n
    ensures forall k | 0 <= k < n :: parts[k] == []
    ensures Bag(parts) == multiset{}
  {
    if n == 0 then [] else [[]] + Empties(n - 1)
  }

  lemma BagAppend<T>(parts: seq<seq<T>>, k: nat, chunk: seq<T>)
    requires k < |parts|
    ensures Bag(parts[k := parts[k] + chunk]) == Bag(parts) + multiset(chunk)
  {
    var after := parts[k := parts[k] + chunk];
    BagAt(parts, k);
    BagAt(after, k);
    assert after[..k] == parts[..k] && after[k + 1..] == parts[k + 1..];
  }

  lemma BagSnoc<T>(parts: seq<seq<T>>, k: nat)
    requires k < |parts|
    ensures Bag(parts[..k + 1]) == Bag(parts[..k]) + multiset(parts[k])
  {
    BagAt(parts[..k + 1], k);
    assert parts[..k + 1][..k] + parts[..k + 1][k + 1..] == parts[..k];
  }

  lemma BagLast<T>(parts: seq<seq<T>>)
    requires parts != []
    ensures Bag(parts) == Bag(parts[..|parts| - 1]) + multiset(parts[|parts| - 1])
  {
    BagSnoc(parts, |parts| - 1);
    assert parts[..|parts|] == parts;
  }

  function Joined(parts: seq<seq<nat>>, chunks: seq<seq<nat>>): (r: seq<seq<nat>>)
    requires |parts| == |chunks|
    ensures |r| == |parts|
  {
    seq(|parts|, k requires 0 <= k < |parts| => parts[k] + chunks[k])
  }

  /** The clients' samples after the classes of `draws`. */
  ghost function Dealt(labels: seq<int>, n: nat, draws: seq<ClassDraw>): (parts: seq<seq<nat>>)
    requires n > 0 && forall c | 0 <= c < |draws| :: SoundDraw(labels, n, draws[c])
    ensures |parts| == n
  {
    if draws == [] then Empties(n)
    else
      var last := draws[|draws| - 1];
      assert SoundDraw(labels, n, last);
      Joined(Dealt(labels, n, draws[..|draws| - 1]), Cut(last.idx, last.shares))
  }

  /** The chunks of one class, one to each client. */
  method Deal(parts: seq<seq<nat>>, chunks: seq<seq<nat>>) returns (r: seq<seq<nat>>)
    requires |parts| == |chunks|
    ensures r == Joined(parts, chunks)
    ensures Bag(r) == Bag(parts) + Bag(chunks)
  {
    r := parts;
    var k := 0;
    assert chunks[..0] == [] && Bag(chunks[..0]) == multiset{};
    hide Bag;
    while k < |chunks|
      invariant k <= |chunks| && |r| == |parts|
      invariant forall m | 0 <= m < k :: r[m] == parts[m] + chunks[m]
      invariant forall m | k <= m < |r| :: r[m] == parts[m]
      invariant Bag(r) == Bag(parts) + Bag(chunks[..k])
    {
      BagAppend(r, k, chunks[k]);
      BagSnoc(chunks, k);
      BagAssoc(Bag(parts), Bag(chunks[..k]), multiset(chunks[k]));
      r := r[k := r[k] + chunks[k]];
      k := k + 1;
    }
    assert chunks[..k] == chunks;
  }

  /** Client `k` gets chunk `k` of every class, and nothing else. */
  lemma {:induction false} DealtAt(labels: seq<int>, n: nat, draws: seq<ClassDraw>, k: nat, i: nat)
    requires n > k && forall c | 0 <= c < |draws| :: SoundDraw(labels, n, draws[c])
    ensures i in Dealt(labels, n, draws)[k] <==> exists c :: 0 <= c < |draws| && InChunk(labels, n, draws[c], k, i)
  {
    hide Cut, SoundDraw;
    if draws != [] {
      var init, last := draws[..|draws| - 1], draws[|draws| - 1];
      assert SoundDraw(labels, n, last);
      DealtAt(labels, n, init, k, i);
      assert InChunk(labels, n, draws[|draws| - 1], k, i) <==> InChunk(labels, n, last, k, i);
      hide InChunk;
      assert forall c | 0 <= c < |init| :: init[c] == draws[c];
    }
  }

  ghost predicate InChunk(labels: seq<int>, n: nat, d: ClassDraw, k: nat, i: nat)
    requires k < n && SoundDraw(labels, n, d)
  {
    i in Cut(d.idx, d.shares)[k]
  }

  predicate AtLeast(parts: seq<seq<nat>>, size: int) {
    forall k | 0 <= k < |parts| :: |parts[k]| >= size
  }

  lemma DealStarts(labels: seq<int>, n: nat)
    requires n > 0
    ensures Dealt(labels, n, []) == Empties(n) && MembersOf(labels, ClassesOf([])) == multiset{}
  {
  }

  lemma DealStep(labels: seq<int>, n: nat, draws: seq<ClassDraw>, c: nat)
    requires n > 0 && SoundTry(labels, n, draws) && c < |draws|
    ensures |draws[c].shares| == n && Shares(draws[c].shares, |draws[c].shares|)
    ensures var chunks := Cut(draws[c].idx, draws[c].shares);
      && Dealt(labels, n, draws[..c + 1]) == Joined(Dealt(labels, n, draws[..c]), chunks)
      && MembersOf(labels, ClassesOf(draws[..c + 1])) == MembersOf(labels, ClassesOf(draws[..c])) + Bag(chunks)
  {
    hide Bag, Members, Joined;
    assert SoundDraw(labels, n, draws[c]);
    CutExact(draws[c].idx, draws[c].shares);
    assert draws[..c + 1][..c] == draws[..c];
    assert ClassesOf(draws[..c + 1])[..c] == ClassesOf(draws[..c]);
  }

  /** One pass over the classes. */
  method DealClasses(labels: seq<int>, n: nat, draws: seq<ClassDraw>) returns (parts: seq<seq<nat>>)
    requires n > 0 && SoundTry(labels, n, draws)
    ensures |parts| == n && Exact(parts, |labels|) && parts == Dealt(labels, n, draws)
  {
    parts := Empties(n);
    var c := 0;
    hide Dealt, Bag, MembersOf, ClassesOf, Joined, Cut, SoundDraw, Shares;
    DealStarts(labels, n);
    while c < |draws|
      invariant c <= |draws| && |parts| == n
      invariant parts == Dealt(labels, n, draws[..c])
      invariant Bag(parts) == MembersOf(labels, ClassesOf(draws[..c]))
    {
      DealStep(labels, n, draws, c);
      parts := Deal(parts, Cut(draws[c].idx, draws[c].shares));
      c := c + 1;
    }
    assert draws[..c] == draws && draws[..|draws|] == draws;
    MembersOfAll(labels, ClassesOf(draws));
  }

  ghost predicate DealtTooFew(labels: seq<int>, n: nat, minSize: int, draws: seq<ClassDraw>) {
    n > 0 && SoundTry(labels, n, draws) && !AtLeast(Dealt(labels, n, draws), minSize)
  }

  ghost predicate FirstDealt(labels: seq<int>, n: nat, minSize: int, tries: seq<seq<ClassDraw>>, t: nat) {
    && n > 0 && t < |tries| && SoundTry(labels, n, tries[t])
    && AtLeast(Dealt(labels, n, tries[t]), minSize)
    && forall u | 0 <= u < t :: DealtTooFew(labels, n, minSize, tries[u])
  }

  /** `_dirichlet`: the first draw that leaves no client short; the search fails only when every one
      does. */
  method Dirichlet(labels: seq<int>, n: nat, alpha: real, minSize: int, tries: seq<seq<ClassDraw>>)
    returns (r: Result<seq<seq<nat>>>)
    requires n > 0 && forall t | 0 <= t < |tries| :: SoundTry(labels, n, tries[t])
    ensures alpha <= 0.0 <==> r == Err(BadConcentration)
    ensures r.Ok? ==> |r.value| == n && Exact(r.value, |labels|) && AtLeast(r.value, minSize)
    ensures r.Ok? ==>
        exists t | 0 <= t < |tries| :: FirstDealt(labels, n, minSize, tries, t) && r.value == Dealt(labels, n, tries[t])
    ensures r.Err? ==> r.error == BadConcentration || r.error == NoSplitFound
    ensures r == Err(NoSplitFound) <==>
      alpha > 0.0 && forall t | 0 <= t < |tries| :: DealtTooFew(labels, n, minSize, tries[t])
  {
    if alpha <= 0.0 {
      return Err(BadConcentration);
    }
    for t := 0 to |tries|
      invariant forall u | 0 <= u < t :: DealtTooFew(labels, n, minSize, tries[u])
    {
      var parts := DealClasses(labels, n, tries[t]);
      if AtLeast(parts, minSize) {
        assert FirstDealt(labels, n, minSize, tries, t);
        return Ok(parts);
      }
    }
    r := Err(NoSplitFound);
  }

  // ── quantity skew ────────────────────────────────────────────────────────────

  /** `_quantity`: one shuffle, cut by the first shares that leave no client short; the search fails
      only when every try does. */
  method Quantity(n: nat, beta: real, minSize: int, idx: seq<nat>, tries: seq<seq<real>>)
    returns (r: Result<seq<seq<nat>>>)
    requires n > 0 && Shuffle(idx, |idx|) && forall t | 0 <= t < |tries| :: Shares(tries[t], n)
    ensures beta <= 0.0 <==> r == Err(BadConcentration)
    ensures r.Ok? ==> |r.value| == n && Exact(r.value, |idx|) && AtLeast(r.value, minSize)
    ensures r.Ok? ==> exists t | 0 <= t < |tries| :: FirstFit(idx, minSize, tries, t) && r.value == Cut(idx, tries[t])
    ensures r.Err? ==> r.error == BadConcentration || r.error == NoSplitFound
    ensures r == Err(NoSplitFound) <==>
      beta > 0.0 && forall t | 0 <= t < |tries| :: TooSmall(idx, minSize, tries[t])
  {
    if beta <= 0.0 {
      return Err(BadConcentration);
    }
    for t := 0 to |tries|
      invariant forall u | 0 <= u < t :: TooSmall(idx, minSize, tries[u])
    {
      var parts := Cut(idx, tries[t]);
      if AtLeast(parts, minSize) {
        CutExact(idx, tries[t]);
        assert FirstFit(idx, minSize, tries, t);
        return Ok(parts);
      }
    }
    r := Err(NoSplitFound);
  }

  ghost predicate TooSmall(idx: seq<nat>, minSize: int, shares: seq<real>) {
    Shares(shares, |shares|) && shares != [] && !AtLeast(Cut(idx, shares), minSize)
  }

  ghost predicate FirstFit(idx: seq<nat>, minSize: int, tries: seq<seq<real>>, t: nat) {
    && t < |tries| && Shares(tries[t], |tries[t]|) && tries[t] != []
    && AtLeast(Cut(idx, tries[t]), minSize)
    && forall u | 0 <= u < t :: TooSmall(idx, minSize, tries[u])
  }

  // ── shards ───────────────────────────────────────────────────────────────────

  predicate Below(pick: seq<nat>, m: nat) {
    forall j | 0 <= j < |pick| :: pick[j] < m
  }

  /** The shards picked, one after the other. */
  function Picked(shards: seq<seq<nat>>, pick: seq<nat>): (idx: seq<nat>)
    requires Below(pick, |shards|)
  {
    if pick == [] then [] else Picked(shards, pick[..|pick| - 1]) + shards[pick[|pick| - 1]]
  }

  /** Row `k` of the pick goes to client `k`. */
  function Rows(shards: seq<seq<nat>>, pick: seq<nat>, n: nat, each: nat): (parts: seq<seq<nat>>)
    requires |pick| == n * each && Below(pick, |shards|)
    ensures |parts| == n
  {
    if n == 0 then []
    else
      Arithmetic.NextMultiple(0, n, each);
      assert n * each - each == (n - 1) * each;
      Rows(shards, pick[..(n - 1) * each], n - 1, each) + [Picked(shards, pick[(n - 1) * each..])]
  }

  /** Client `k` gets the shards of row `k`. */
  lemma {:induction false} RowAt(shards: seq<seq<nat>>, pick: seq<nat>, n: nat, each: nat, k: nat)
    requires |pick| == n * each && Below(pick, |shards|) && k < n
    ensures 0 <= k * each <= (k + 1) * each <= |pick|
    ensures Rows(shards, pick, n, each)[k] == Picked(shards, pick[k * each..(k + 1) * each])
  {
    Arithmetic.NextMultiple(0, n, each);
    assert n * each - each == (n - 1) * each;
    if k < n - 1 {
      var before := pick[..(n - 1) * each];
      RowAt(shards, before, n - 1, each, k);
      assert before[k * each..(k + 1) * each] == pick[k * each..(k + 1) * each];
      assert Rows(shards, pick, n, each)[k] == Rows(shards, before, n - 1, each)[k];
    } else {
      assert pick[k * each..(k + 1) * each] == pick[(n - 1) * each..];
    }
  }

  /** A picked shard's samples, and no others. */
  lemma {:induction false} PickedHold(shards: seq<seq<nat>>, pick: seq<nat>, i: nat)
    requires Below(pick, |shards|)
    ensures i in Picked(shards, pick) <==> exists j :: 0 <= j < |pick| && i in shards[pick[j]]
  {
    if pick != [] {
      var n := |pick| - 1;
      PickedHold(shards, pick[..n], i);
      assert forall j | 0 <= j < n :: pick[..n][j] == pick[j];
    }
  }

  lemma {:induction false} PickedSplit(shards: seq<seq<nat>>, pick: seq<nat>, j: nat)
    requires j <= |pick| && Below(pick, |shards|)
    ensures Picked(shards, pick) == Picked(shards, pick[..j]) + Picked(shards, pick[j..])
  {
    if j == |pick| {
      assert pick[..j] == pick;
    } else {
      var n := |pick| - 1;
      PickedSplit(shards, pick[..n], j);
      assert pick[..n][..j] == pick[..j] && pick[..n][j..] == pick[j..][..n - j];
    }
  }

  lemma {:induction false} RowsBag(shards: seq<seq<nat>>, pick: seq<nat>, n: nat, each: nat)
    requires |pick| == n * each && Below(pick, |shards|)
    ensures Bag(Rows(shards, pick, n, each)) == multiset(Picked(shards, pick))
  {
    if n > 0 {
      var parts := Rows(shards, pick, n, each);
      var before := pick[..(n - 1) * each];
      RowsBag(shards, before, n - 1, each);
      PickedSplit(shards, pick, (n - 1) * each);
      BagSnoc(parts, n - 1);
      assert parts[..n] == parts && parts[..n - 1] == Rows(shards, before, n - 1, each);
    }
  }

  lemma {:induction false} PickedPrefix(shards: seq<seq<nat>>, m: nat, pick: seq<nat>)
    requires m <= |shards| && Below(pick, m)
    ensures Picked(shards, pick) == Picked(shards[..m], pick)
  {
    if pick != [] {
      PickedPrefix(shards, m, pick[..|pick| - 1]);
    }
  }

  lemma PickedWithout(shards: seq<seq<nat>>, pick: seq<nat>, j: nat)
    requires j < |pick| && Below(pick, |shards|)
    ensures multiset(Picked(shards, pick))
      == multiset(Picked(shards, pick[..j] + pick[j + 1..])) + multiset(shards[pick[j]])
  {
    var a, b := pick[..j], pick[j + 1..];
    PickedSplit(shards, pick, j + 1);
    PickedSplit(shards, a + b, j);
    assert (a + b)[..j] == a && (a + b)[j..] == b && pick[..j + 1][..j] == a;
  }

  lemma InBounds(pick: seq<nat>, m: nat)
    requires Shuffle(pick, m)
    ensures Below(pick, m)
  {
    forall j | 0 <= j < |pick| ensures pick[j] < m {
      InRange(m, pick[j]);
      assert pick[j] in multiset(pick);
    }
  }

  lemma BagWithout<T>(s: seq<T>, j: nat)
    requires j < |s|
    ensures multiset(s[..j] + s[j + 1..]) == multiset(s) - multiset([s[j]])
  {
    assert s == s[..j] + [s[j]] + s[j + 1..];
  }

  lemma WithoutLast(pick: seq<nat>, m: nat, j: nat)
    requires m > 0 && Shuffle(pick, m) && j < |pick| && pick[j] == m - 1
    ensures Shuffle(pick[..j] + pick[j + 1..], m - 1)
  {
    BagWithout(pick, j);
    assert Range(m) == Range(m - 1) + [pick[j]];
    hide Range;
    calc {
      multiset(pick[..j] + pick[j + 1..]);
      multiset(Range(m)) - multiset([pick[j]]);
      multiset(Range(m - 1));
    }
  }

  lemma LastPicked(pick: seq<nat>, m: nat) returns (j: nat)
    requires m > 0 && Shuffle(pick, m)
    ensures j < |pick| && pick[j] == m - 1
  {
    InRange(m, m - 1);
    assert m - 1 in multiset(pick);
    j :| 0 <= j < |pick| && pick[j] == m - 1;
  }

  lemma PickedLast(shards: seq<seq<nat>>, pick: seq<nat>) returns (others: seq<nat>)
    requires shards != [] && Shuffle(pick, |shards|) && Below(pick, |shards|)
    ensures Shuffle(others, |shards| - 1) && Below(others, |shards| - 1)
    ensures multiset(Picked(shards, pick))
      == multiset(Picked(shards[..|shards| - 1], others)) + multiset(shards[|shards| - 1])
  {
    var m := |shards|;
    var j := LastPicked(pick, m);
    others := pick[..j] + pick[j + 1..];
    WithoutLast(pick, m, j);
    InBounds(others, m - 1);
    PickedWithout(shards, pick, j);
    PickedPrefix(shards, m - 1, others);
    hide *;
  }

  /** Picking every shard once gives all that the shards hold. */
  lemma {:induction false} PickedAll(shards: seq<seq<nat>>, pick: seq<nat>)
    requires Shuffle(pick, |shards|) && Below(pick, |shards|)
    ensures multiset(Picked(shards, pick)) == Bag(shards)
  {
    if shards == [] {
      ShuffleSize(pick, 0);
    } else {
      var others := PickedLast(shards, pick);
      PickedAll(shards[..|shards| - 1], others);
      BagLast(shards);
      hide *;
    }
  }

  lemma ShuffleSize(pick: seq<nat>, n: nat)
    requires Shuffle(pick, n)
    ensures |pick| == n
  {
    assert |multiset(pick)| == |pick| && |multiset(Range(n))| == n;
  }

  function InsertByLabel(labels: seq<int>, s: seq<nat>, i: nat): (r: seq<nat>)
    requires i < |labels| && Below(s, |labels|)
    ensures Below(r, |labels|)
  {
    if s == [] || labels[s[|s| - 1]] <= labels[i] then s + [i]
    else InsertByLabel(labels, s[..|s| - 1], i) + [s[|s| - 1]]
  }

  /** `order[argsort(labels[order], kind="stable")]`. */
  function ByLabel(labels: seq<int>, order: seq<nat>): (r: seq<nat>)
    requires Below(order, |labels|)
    ensures Below(r, |labels|)
  {
    if order == [] then [] else InsertByLabel(labels, ByLabel(labels, order[..|order| - 1]), order[|order| - 1])
  }

  ghost predicate LabelsAscend(labels: seq<int>, s: seq<nat>)
    requires Below(s, |labels|)
  {
    forall a, b | 0 <= a < b < |s| :: labels[s[a]] <= labels[s[b]]
  }

  lemma {:induction false} InsertedByLabel(labels: seq<int>, s: seq<nat>, i: nat)
    requires i < |labels| && Below(s, |labels|) && LabelsAscend(labels, s)
    ensures var r := InsertByLabel(labels, s, i);
      && multiset(r) == multiset(s) + multiset([i]) && LabelsAscend(labels, r)
      && forall x | x in r :: x in s || x == i
  {
    var n := |s| - 1;
    if s != [] && labels[s[n]] > labels[i] {
      InsertedByLabel(labels, s[..n], i);
      BagInit(s);
      var r := InsertByLabel(labels, s[..n], i);
      forall a | 0 <= a < |r| ensures labels[r[a]] <= labels[s[n]] {
        assert r[a] in r;
      }
    }
  }

  /** Sorted by label, nothing lost. */
  lemma {:induction false} SortedByLabel(labels: seq<int>, order: seq<nat>)
    requires Below(order, |labels|)
    ensures multiset(ByLabel(labels, order)) == multiset(order) && LabelsAscend(labels, ByLabel(labels, order))
  {
    if order != [] {
      var n := |order| - 1;
      SortedByLabel(labels, order[..n]);
      hide InsertByLabel, LabelsAscend;
      InsertedByLabel(labels, ByLabel(labels, order[..n]), order[n]);
      BagInit(order);
    }
  }

  function OfLabel(labels: seq<int>, s: seq<nat>, c: int): seq<nat>
    requires Below(s, |labels|)
  {
    if s == [] then []
    else OfLabel(labels, s[..|s| - 1], c) + if labels[s[|s| - 1]] == c then [s[|s| - 1]] else []
  }

  lemma {:induction false} InsertStable(labels: seq<int>, s: seq<nat>, i: nat, c: int)
    requires i < |labels| && Below(s, |labels|) && LabelsAscend(labels, s)
    ensures OfLabel(labels, InsertByLabel(labels, s, i), c) ==
            OfLabel(labels, s, c) + if labels[i] == c then [i] else []
  {
    if s == [] || labels[s[|s| - 1]] <= labels[i] {
      assert (s + [i])[..|s|] == s;
    } else {
      var init, last := s[..|s| - 1], s[|s| - 1];
      InsertStable(labels, init, i, c);
      var r := InsertByLabel(labels, init, i);
      assert (r + [last])[..|r|] == r;
      if labels[last] == c && labels[i] == c { assert false; }
    }
  }

  /** Stable: within a label the samples keep the order they came in. */
  lemma {:induction false} StableByLabel(labels: seq<int>, order: seq<nat>, c: int)
    requires Below(order, |labels|)
    ensures OfLabel(labels, ByLabel(labels, order), c) == OfLabel(labels, order, c)
  {
    if order != [] {
      var n := |order| - 1;
      StableByLabel(labels, order[..n], c);
      SortedByLabel(labels, order[..n]);
      InsertStable(labels, ByLabel(labels, order[..n]), order[n], c);
    }
  }

  /** The clients' samples: what the rows of the pick take of the shards of the sorted samples. */
  ghost predicate AreShards(labels: seq<int>, n: nat, each: nat, order: seq<nat>, pick: seq<nat>,
                            parts: seq<seq<nat>>) {
    && 0 < n * each == |pick| && Below(pick, n * each) && Below(order, |labels|)
    && parts == Rows(ArraySplit(ByLabel(labels, order), n * each), pick, n, each)
  }

  lemma ShardsExact(labels: seq<int>, n: nat, each: nat, m: nat, order: seq<nat>, pick: seq<nat>)
    requires m == n * each && 0 < m <= |labels| && Shuffle(order, |labels|) && Shuffle(pick, m)
    ensures |pick| == m && Below(pick, m) && Below(order, |labels|)
    ensures Exact(Rows(ArraySplit(ByLabel(labels, order), m), pick, n, each), |labels|)
  {
    InBounds(order, |labels|);
    SortedByLabel(labels, order);
    InBounds(pick, m);
    ShuffleSize(pick, m);
    hide Rows, Picked, Bag, Range, ByLabel, LabelsAscend, Below;
    var shards := ArraySplit(ByLabel(labels, order), m);
    ArraySplitExact(ByLabel(labels, order), m);
    hide ArraySplit;
    PickedAll(shards, pick);
    RowsBag(shards, pick, n, each);
  }

  /** `_shards`. */
  method Shards(labels: seq<int>, n: nat, each: nat, order: seq<nat>, pick: seq<nat>) returns (r: Result<seq<seq<nat>>>)
    requires n > 0 && Shuffle(order, |labels|) && Shuffle(pick, n * each)
    ensures r.Ok? <==> 0 < each && n * each <= |labels|
    ensures r.Err? ==> r.error == if n * each > |labels| then TooManyShards else NoShards
    ensures r.Ok? ==> |r.value| == n && Exact(r.value, |labels|) && AreShards(labels, n, each, order, pick, r.value)
    ensures r.Ok? ==> ShardParts(labels, each, order, pick, r.value)
  {
    hide Shuffle, Rows, ArraySplit, ByLabel, Below, Exact, ShardParts;
    var m := n * each;
    if m > |labels| {
      return Err(TooManyShards);
    }
    Arithmetic.NextMultiple(0, n, each);
    if m == 0 {
      return Err(NoShards);
    }
    ShardsExact(labels, n, each, m, order, pick);
    r := Ok(Rows(ArraySplit(ByLabel(labels, order), m), pick, n, each));
    ShardsAre(labels, n, each, order, pick, r.value);
  }

  /** The shards are runs of labels: no sample of a shard has a larger label than one of a later
      shard. */
  lemma ShardsAscend(labels: seq<int>, order: seq<nat>, m: nat, k: nat, l: nat, i: nat, j: nat)
    requires Below(order, |labels|) && k < l < m
    requires var shards := ArraySplit(ByLabel(labels, order), m); i < |shards[k]| && j < |shards[l]|
    ensures var shards := ArraySplit(ByLabel(labels, order), m);
      shards[k][i] < |labels| && shards[l][j] < |labels| && labels[shards[k][i]] <= labels[shards[l][j]]
  {
    hide Section, ArraySplit, ByLabel;
    var s := ByLabel(labels, order);
    SortedByLabel(labels, order);
    ArraySplitAt(s, m, k, i);
    ArraySplitAt(s, m, l, j);
    SectionMonotone(|s|, m, k + 1, l);
    LabelsAt(labels, s, Section(|s|, m, k) + i, Section(|s|, m, l) + j);
    hide *;
  }

  lemma LabelsAt(labels: seq<int>, s: seq<nat>, a: nat, b: nat)
    requires Below(s, |labels|) && LabelsAscend(labels, s)
    ensures a < b < |s| ==> s[a] < |labels| && s[b] < |labels| && labels[s[a]] <= labels[s[b]]
  {
  }

  /** Element `i` of part `k`. */
  lemma ArraySplitAt(s: seq<nat>, m: nat, k: nat, i: nat)
    requires k < m && i < |ArraySplit(s, m)[k]|
    ensures Section(|s|, m, k) + i < Section(|s|, m, k + 1) <= |s|
    ensures ArraySplit(s, m)[k][i] == s[Section(|s|, m, k) + i]
  {
    SectionEnd(|s|, m);
    SectionMonotone(|s|, m, k, k + 1);
    SectionMonotone(|s|, m, k + 1, m);
    SplitAt(s, 0, seq(m - 1, k requires 0 <= k < m - 1 => Section(|s|, m, k + 1)), k);
    hide Section, Split;
  }

  // ── whole groups ─────────────────────────────────────────────────────────────

  function Size(ids: seq<int>, g: int): nat {
    |Members(ids, g)|
  }

  predicate Descending(ids: seq<int>, gs: seq<int>) {
    forall a, b | 0 <= a < b < |gs| :: Size(ids, gs[a]) >= Size(ids, gs[b])
  }

  function InsertBySize(ids: seq<int>, gs: seq<int>, g: int): seq<int> {
    if gs == [] then [g]
    else
      var n := |gs| - 1;
      if Size(ids, gs[n]) >= Size(ids, g) then gs + [g]
      else InsertBySize(ids, gs[..n], g) + [gs[n]]
  }

  /** `sorted(ids, key=-size)`, ties in the order they came. */
  function BySize(ids: seq<int>, gs: seq<int>): seq<int> {
    if gs == [] then [] else InsertBySize(ids, BySize(ids, gs[..|gs| - 1]), gs[|gs| - 1])
  }

  lemma BagInit<T>(s: seq<T>)
    requires s != []
    ensures multiset(s) == multiset(s[..|s| - 1]) + multiset([s[|s| - 1]])
  {
    assert s == s[..|s| - 1] + [s[|s| - 1]];
  }

  lemma {:induction false} InsertedBySize(ids: seq<int>, gs: seq<int>, g: int)
    requires Descending(ids, gs)
    ensures var r := InsertBySize(ids, gs, g);
      && multiset(r) == multiset(gs) + multiset([g]) && Descending(ids, r)
      && forall x | x in r :: x in gs || x == g
  {
    var n := |gs| - 1;
    hide Size;
    if gs != [] && Size(ids, gs[n]) < Size(ids, g) {
      assert Descending(ids, gs[..n]);
      InsertedBySize(ids, gs[..n], g);
      BagInit(gs);
      var r := InsertBySize(ids, gs[..n], g);
      assert InsertBySize(ids, gs, g) == r + [gs[n]];
      hide InsertBySize;
      forall a | 0 <= a < |r| ensures Size(ids, r[a]) >= Size(ids, gs[n]) {
        assert r[a] in r;
      }
    }
  }

  lemma {:induction false} SortedBySize(ids: seq<int>, gs: seq<int>)
    ensures multiset(BySize(ids, gs)) == multiset(gs) && Descending(ids, BySize(ids, gs))
  {
    if gs != [] {
      var n := |gs| - 1;
      hide Size, InsertBySize;
      SortedBySize(ids, gs[..n]);
      hide Descending;
      InsertedBySize(ids, BySize(ids, gs[..n]), gs[n]);
      BagInit(gs);
    }
  }

  function OfSize(ids: seq<int>, gs: seq<int>, size: nat): seq<int> {
    if gs == [] then []
    else OfSize(ids, gs[..|gs| - 1], size) + if Size(ids, gs[|gs| - 1]) == size then [gs[|gs| - 1]] else []
  }

  lemma {:induction false} InsertSizeStable(ids: seq<int>, gs: seq<int>, g: int, size: nat)
    ensures OfSize(ids, InsertBySize(ids, gs, g), size)
      == OfSize(ids, gs, size) + if Size(ids, g) == size then [g] else []
  {
    hide Size;
    if gs == [] || Size(ids, gs[|gs| - 1]) >= Size(ids, g) {
      assert (gs + [g])[..|gs|] == gs;
    } else {
      var init, last := gs[..|gs| - 1], gs[|gs| - 1];
      InsertSizeStable(ids, init, g, size);
      var r := InsertBySize(ids, init, g);
      assert (r + [last])[..|r|] == r;
      if Size(ids, last) == size && Size(ids, g) == size { assert false; }
    }
  }

  /** Stable: groups of one size keep the order they came in. */
  lemma {:induction false} StableBySize(ids: seq<int>, gs: seq<int>, size: nat)
    ensures OfSize(ids, BySize(ids, gs), size) == OfSize(ids, gs, size)
  {
    hide Size;
    if gs != [] {
      var n := |gs| - 1;
      StableBySize(ids, gs[..n], size);
      InsertSizeStable(ids, BySize(ids, gs[..n]), gs[n], size);
    }
  }

  /** The samples of some groups, group by group. */
  function Chunks(ids: seq<int>, gs: seq<int>): seq<nat> {
    if gs == [] then [] else Chunks(ids, gs[..|gs| - 1]) + Members(ids, gs[|gs| - 1])
  }

  lemma {:induction false} ChunksHold(ids: seq<int>, gs: seq<int>)
    ensures multiset(Chunks(ids, gs)) == MembersOf(ids, gs)
    ensures forall i :: i in Chunks(ids, gs) <==> 0 <= i < |ids| && ids[i] in gs
  {
    if gs != [] {
      var n := |gs| - 1;
      ChunksHold(ids, gs[..n]);
      assert gs == gs[..n] + [gs[n]];
      forall i ensures i in Chunks(ids, gs) <==> 0 <= i < |ids| && ids[i] in gs {
        if i >= 0 {
          MembersAre(ids, gs[n], i);
        }
      }
    }
  }

  function Load(ids: seq<int>, gs: seq<int>): nat {
    |Chunks(ids, gs)|
  }

  /** Without its last group no client has more samples than any other client. */
  ghost predicate FairAt(ids: seq<int>, placed: seq<seq<int>>, k: nat, m: nat)
    requires k < |placed| && m < |placed|
  {
    placed[k] != [] ==> Load(ids, placed[k][..|placed[k]| - 1]) <= Load(ids, placed[m])
  }

  ghost predicate Fair(ids: seq<int>, placed: seq<seq<int>>) {
    forall k, m | 0 <= k < |placed| && 0 <= m < |placed| :: FairAt(ids, placed, k, m)
  }

  ghost predicate LargestFirst(ids: seq<int>, placed: seq<seq<int>>) {
    forall k | 0 <= k < |placed| :: Descending(ids, placed[k])
  }

  /** `np.argmin`: the first of the smallest. */
  method ArgMin(sizes: array<nat>) returns (k: nat)
    requires sizes.Length > 0
    ensures k < sizes.Length
    ensures forall m | 0 <= m < sizes.Length :: sizes[k] <= sizes[m]
    ensures forall m | 0 <= m < k :: sizes[k] < sizes[m]
  {
    k := 0;
    for m := 1 to sizes.Length
      invariant k < m
      invariant forall j | 0 <= j < m :: sizes[k] <= sizes[j]
      invariant forall j | 0 <= j < k :: sizes[k] < sizes[j]
    {
      if sizes[m] < sizes[k] {
        k := m;
      }
    }
  }

  lemma PlaceFair(ids: seq<int>, placed: seq<seq<int>>, k: nat, g: int)
    requires k < |placed| && Fair(ids, placed)
    requires forall m | 0 <= m < |placed| :: Load(ids, placed[k]) <= Load(ids, placed[m])
    ensures Fair(ids, placed[k := placed[k] + [g]])
  {
    var after := placed[k := placed[k] + [g]];
    assert after[k][..|placed[k]|] == placed[k];
    forall a, m | 0 <= a < |after| && 0 <= m < |after| ensures FairAt(ids, after, a, m) {
      assert FairAt(ids, placed, a, m);
    }
  }

  lemma PlaceLargest(ids: seq<int>, placed: seq<seq<int>>, k: nat, g: int)
    requires k < |placed| && LargestFirst(ids, placed)
    requires forall h | h in placed[k] :: Size(ids, h) >= Size(ids, g)
    ensures LargestFirst(ids, placed[k := placed[k] + [g]])
  {
    hide Size;
    var gs := placed[k];
    assert Descending(ids, gs);
    forall a, b | 0 <= a < b < |gs + [g]| ensures Size(ids, (gs + [g])[a]) >= Size(ids, (gs + [g])[b]) {
      assert a < |gs| && gs[a] in gs;
    }
  }

  predicate LoadIs(ids: seq<int>, placed: seq<seq<int>>, k: nat, size: nat)
    requires k < |placed|
  {
    size == Load(ids, placed[k])
  }

  lemma LoadMore(ids: seq<int>, gs: seq<int>, g: int)
    ensures Load(ids, gs + [g]) == Load(ids, gs) + Size(ids, g)
  {
    assert (gs + [g])[..|gs|] == gs;
  }

  lemma PlacedEarlier(ids: seq<int>, order: seq<int>, j: nat, placed: seq<seq<int>>, k: nat)
    requires j < |order| && Descending(ids, order) && k < |placed| && Bag(placed) == multiset(order[..j])
    ensures forall h | h in placed[k] :: Size(ids, h) >= Size(ids, order[j])
  {
    forall h | h in placed[k] ensures Size(ids, h) >= Size(ids, order[j]) {
      BagAt(placed, k);
      assert h in multiset(order[..j]);
    }
  }

  lemma PlaceKeeps(ids: seq<int>, order: seq<int>, j: nat, placed: seq<seq<int>>, k: nat)
    requires j < |order| && Descending(ids, order) && k < |placed|
    requires Bag(placed) == multiset(order[..j]) && Fair(ids, placed) && LargestFirst(ids, placed)
    requires forall m | 0 <= m < |placed| :: Load(ids, placed[k]) <= Load(ids, placed[m])
    ensures var after := placed[k := placed[k] + [order[j]]];
      Bag(after) == multiset(order[..j + 1]) && Fair(ids, after) && LargestFirst(ids, after)
  {
    hide Load, Descending, Bag, Fair, LargestFirst;
    PlaceFair(ids, placed, k, order[j]);
    PlacedEarlier(ids, order, j, placed, k);
    PlaceLargest(ids, placed, k, order[j]);
    BagAppend(placed, k, [order[j]]);
    assert order[..j + 1] == order[..j] + [order[j]];
  }

  ghost predicate LoadsAre(ids: seq<int>, placed: seq<seq<int>>, sizes: seq<nat>) {
    |sizes| == |placed| && forall k | 0 <= k < |placed| :: LoadIs(ids, placed, k, sizes[k])
  }

  lemma LoadsKept(ids: seq<int>, placed: seq<seq<int>>, sizes: seq<nat>, k: nat, g: int)
    requires LoadsAre(ids, placed, sizes) && k < |placed|
    ensures LoadsAre(ids, placed[k := placed[k] + [g]], sizes[k := sizes[k] + Size(ids, g)])
  {
    hide Load, Size;
    LoadMore(ids, placed[k], g);
    var after, grown := placed[k := placed[k] + [g]], sizes[k := sizes[k] + Size(ids, g)];
    forall m | 0 <= m < |after| ensures LoadIs(ids, after, m, grown[m]) {
      assert LoadIs(ids, placed, m, sizes[m]);
    }
  }

  lemma SmallestLoad(ids: seq<int>, placed: seq<seq<int>>, sizes: seq<nat>, k: nat)
    requires LoadsAre(ids, placed, sizes) && k < |placed|
    requires forall m | 0 <= m < |sizes| :: sizes[k] <= sizes[m]
    ensures forall m | 0 <= m < |placed| :: Load(ids, placed[k]) <= Load(ids, placed[m])
  {
    hide Load;
    forall m | 0 <= m < |placed| ensures Load(ids, placed[k]) <= Load(ids, placed[m]) {
      assert LoadIs(ids, placed, m, sizes[m]) && LoadIs(ids, placed, k, sizes[k]);
    }
  }

  /** The state after the first `j` groups. */
  ghost predicate Greedy(ids: seq<int>, order: seq<int>, j: nat, placed: seq<seq<int>>, sizes: seq<nat>)
    requires j <= |order|
  {
    && Bag(placed) == multiset(order[..j]) && LoadsAre(ids, placed, sizes)
    && Fair(ids, placed) && LargestFirst(ids, placed)
  }

  lemma GreedyLoads(ids: seq<int>, order: seq<int>, j: nat, placed: seq<seq<int>>, sizes: seq<nat>)
    requires j <= |order| && Greedy(ids, order, j, placed, sizes)
    ensures LoadsAre(ids, placed, sizes)
  {
  }

  lemma GreedyStart(ids: seq<int>, order: seq<int>, placed: seq<seq<int>>, sizes: seq<nat>)
    requires |placed| == |sizes| && Bag(placed) == multiset{}
    requires forall k | 0 <= k < |placed| :: placed[k] == [] && sizes[k] == 0
    ensures Greedy(ids, order, 0, placed, sizes)
  {
    assert order[..0] == [];
  }

  lemma GreedyEnd(ids: seq<int>, order: seq<int>, placed: seq<seq<int>>, sizes: seq<nat>)
    requires Greedy(ids, order, |order|, placed, sizes)
    ensures Bag(placed) == multiset(order) && Fair(ids, placed) && LargestFirst(ids, placed)
  {
    assert order[..|order|] == order;
  }

  lemma GreedyStep(ids: seq<int>, order: seq<int>, j: nat, placed: seq<seq<int>>, sizes: seq<nat>, k: nat)
    requires j < |order| && Descending(ids, order) && Greedy(ids, order, j, placed, sizes)
    requires k < |placed| == |sizes| && forall m | 0 <= m < |sizes| :: sizes[k] <= sizes[m]
    ensures Greedy(ids, order, j + 1, placed[k := placed[k] + [order[j]]],
      sizes[k := sizes[k] + Size(ids, order[j])])
  {
    SmallestLoad(ids, placed, sizes, k);
    hide Load, Size, Descending, Bag, Fair, LargestFirst, LoadsAre;
    PlaceKeeps(ids, order, j, placed, k);
    LoadsKept(ids, placed, sizes, k, order[j]);
  }

  /** The groups of `order` that went to client `k`, when group `j` went to client `ks[j]`. */
  function Taken(order: seq<int>, ks: seq<nat>, k: nat): seq<int>
    requires |order| == |ks|
  {
    if order == [] then []
    else
      var n := |order| - 1;
      Taken(order[..n], ks[..n], k) + if ks[n] == k then [order[n]] else []
  }

  /** Group `j` goes to the client that has the fewest samples by then, the first of them. */
  ghost predicate ChoiceAt(ids: seq<int>, order: seq<int>, ks: seq<nat>, n: nat, j: nat)
    requires j < |ks| <= |order|
  {
    && ks[j] < n
    && forall m: nat | m < n ::
         var mine, others := Load(ids, Taken(order[..j], ks[..j], ks[j])), Load(ids, Taken(order[..j], ks[..j], m));
         mine <= others && (m < ks[j] ==> mine < others)
  }

  ghost predicate Choices(ids: seq<int>, order: seq<int>, ks: seq<nat>, n: nat) {
    |ks| <= |order| && forall j: nat | j < |ks| :: ChoiceAt(ids, order, ks, n, j)
  }

  ghost predicate TakenAll(order: seq<int>, ks: seq<nat>, placed: seq<seq<int>>) {
    |ks| <= |order| && forall k: nat | k < |placed| :: placed[k] == Taken(order[..|ks|], ks, k)
  }

  lemma TakenNext(order: seq<int>, ks: seq<nat>, placed: seq<seq<int>>, k: nat)
    requires |ks| < |order| && TakenAll(order, ks, placed) && k < |placed|
    ensures TakenAll(order, ks + [k], placed[k := placed[k] + [order[|ks|]]])
  {
    var j := |ks|;
    assert order[..j + 1][..j] == order[..j] && (ks + [k])[..j] == ks;
    var after := placed[k := placed[k] + [order[j]]];
    forall m: nat | m < |after| ensures after[m] == Taken(order[..j + 1], ks + [k], m) {
      assert placed[m] + [] == placed[m];
    }
  }

  lemma ChoicesNext(ids: seq<int>, order: seq<int>, ks: seq<nat>, placed: seq<seq<int>>, sizes: seq<nat>, k: nat)
    requires |ks| < |order| && TakenAll(order, ks, placed) && Choices(ids, order, ks, |placed|)
    requires LoadsAre(ids, placed, sizes) && k < |placed|
    requires (forall m | 0 <= m < |sizes| :: sizes[k] <= sizes[m]) && forall m | 0 <= m < k :: sizes[k] < sizes[m]
    ensures Choices(ids, order, ks + [k], |placed|)
  {
    hide Load, Taken;
    var j, after := |ks|, ks + [k];
    assert after[..j] == ks;
    forall m: nat | m < |placed|
      ensures Load(ids, Taken(order[..j], ks, k)) <= Load(ids, Taken(order[..j], ks, m))
      ensures m < k ==> Load(ids, Taken(order[..j], ks, k)) < Load(ids, Taken(order[..j], ks, m))
    {
      assert LoadIs(ids, placed, m, sizes[m]) && LoadIs(ids, placed, k, sizes[k]);
    }
    assert ChoiceAt(ids, order, after, |placed|, j);
    forall i: nat | i < j ensures ChoiceAt(ids, order, after, |placed|, i) {
      assert ChoiceAt(ids, order, ks, |placed|, i) && after[..i] == ks[..i];
    }
  }

  /** The samples of a client are those of the groups that went to it. */
  lemma {:induction false} TakenHold(order: seq<int>, ks: seq<nat>, k: nat, g: int)
    requires |order| == |ks|
    ensures g in Taken(order, ks, k) <==> exists j :: 0 <= j < |order| && order[j] == g && ks[j] == k
  {
    if order != [] {
      var n := |order| - 1;
      TakenHold(order[..n], ks[..n], k, g);
      assert forall j | 0 <= j < n :: order[..n][j] == order[j] && ks[..n][j] == ks[j];
    }
  }

  lemma NextPlaced(ids: seq<int>, order: seq<int>, ks: seq<nat>, placed: seq<seq<int>>, sizes: seq<nat>, k: nat)
    requires |ks| < |order| && Descending(ids, order) && Greedy(ids, order, |ks|, placed, sizes)
    requires TakenAll(order, ks, placed) && Choices(ids, order, ks, |placed|) && k < |placed| == |sizes|
    requires (forall m | 0 <= m < |sizes| :: sizes[k] <= sizes[m]) && forall m | 0 <= m < k :: sizes[k] < sizes[m]
    ensures var g, after := order[|ks|], placed[k := placed[k] + [order[|ks|]]];
      && Greedy(ids, order, |ks| + 1, after, sizes[k := sizes[k] + Size(ids, g)])
      && Choices(ids, order, ks + [k], |placed|) && TakenAll(order, ks + [k], after)
  {
    hide *;
    GreedyLoads(ids, order, |ks|, placed, sizes);
    ChoicesNext(ids, order, ks, placed, sizes, k);
    TakenNext(order, ks, placed, k);
    GreedyStep(ids, order, |ks|, placed, sizes, k);
  }

  lemma PlaceStarts(ids: seq<int>, order: seq<int>, placed: seq<seq<int>>, sizes: seq<nat>)
    requires |placed| == |sizes| && Bag(placed) == multiset{}
    requires forall k | 0 <= k < |placed| :: placed[k] == [] && sizes[k] == 0
    ensures Greedy(ids, order, 0, placed, sizes) && Choices(ids, order, [], |placed|) && TakenAll(order, [], placed)
  {
    GreedyStart(ids, order, placed, sizes);
  }

  /** The greedy placement: the next group to the client with the fewest samples. */
  method Place(ids: seq<int>, order: seq<int>, n: nat) returns (placed: seq<seq<int>>, ghost ks: seq<nat>)
    requires n > 0 && Descending(ids, order)
    ensures |placed| == n && Bag(placed) == multiset(order)
    ensures Fair(ids, placed) && LargestFirst(ids, placed)
    ensures |ks| == |order| && Choices(ids, order, ks, n) && TakenAll(order, ks, placed)
  {
    hide *;
    ks, placed := [], Empties(n);
    var sizes := new nat[n](_ => 0);
    PlaceStarts(ids, order, placed, sizes[..]);
    for j := 0 to |order|
      invariant |placed| == n && |ks| == j && Greedy(ids, order, j, placed, sizes[..])
      invariant Choices(ids, order, ks, n) && TakenAll(order, ks, placed)
    {
      var k := ArgMin(sizes);
      ghost var was := sizes[..];
      NextPlaced(ids, order, ks, placed, was, k);
      placed, ks := placed[k := placed[k] + [order[j]]], ks + [k];
      sizes[k] := sizes[k] + Size(ids, order[j]);
      assert sizes[..] == was[k := was[k] + Size(ids, order[j])];
    }
    GreedyEnd(ids, order, placed, sizes[..]);
  }

  ghost predicate HoldsChunks(ids: seq<int>, placed: seq<seq<int>>, parts: seq<seq<nat>>) {
    |parts| == |placed| && forall k | 0 <= k < |parts| :: parts[k] == Chunks(ids, placed[k])
  }

  /** The groups, largest first and in the order drawn within a size, each to the first client of those
      with the fewest samples. */
  ghost predicate GreedyRun(ids: seq<int>, unique: seq<int>, placed: seq<seq<int>>, ks: seq<nat>) {
    var order := BySize(ids, unique);
    |ks| == |order| && Choices(ids, order, ks, |placed|) && TakenAll(order, ks, placed)
  }

  /** What the greedy placement guarantees of the clients' groups and samples. */
  ghost predicate IsNatural(ids: seq<int>, unique: seq<int>, placed: seq<seq<int>>, parts: seq<seq<nat>>) {
    && Lists(unique, ids) && Bag(placed) == multiset(unique)
    && Fair(ids, placed) && LargestFirst(ids, placed) && HoldsChunks(ids, placed, parts)
  }

  /** `_natural`: the samples of each client, and its groups in the order they were placed. */
  method Natural(samples: nat, groups: Option<seq<int>>, n: nat, unique: seq<int>)
    returns (r: Result<seq<seq<nat>>>, placed: seq<seq<int>>, ghost ks: seq<nat>)
    requires n > 0 && (groups.Some? ==> Lists(unique, groups.value))
    ensures groups.None? ==> r == Err(GroupsMissing)
    ensures groups.Some? && |groups.value| != samples ==> r == Err(GroupsMismatch)
    ensures groups.Some? && |groups.value| == samples && n > |unique| ==> r == Err(FewerGroupsThanClients)
    ensures groups.Some? && |groups.value| == samples && n <= |unique| ==>
      && r.Ok? && |r.value| == n && IsNatural(groups.value, unique, placed, r.value)
      && GreedyRun(groups.value, unique, placed, ks)
  {
    placed, ks := [], [];
    if groups.None? {
      return Err(GroupsMissing), [], [];
    }
    var ids := groups.value;
    if |ids| != samples {
      return Err(GroupsMismatch), [], [];
    }
    if n > |unique| {
      return Err(FewerGroupsThanClients), [], [];
    }
    SortedBySize(ids, unique);
    placed, ks := Place(ids, BySize(ids, unique), n);
    r := Ok(seq(n, k requires 0 <= k < |placed| => Chunks(ids, placed[k])));
    hide Lists, Bag, Fair, LargestFirst, BySize, Chunks, Choices, TakenAll;
  }

  // ── consequences ─────────────────────────────────────────────────────────────

  function Flat(placed: seq<seq<int>>): seq<int> {
    if placed == [] then [] else placed[0] + Flat(placed[1..])
  }

  lemma {:induction false} FlatBag(placed: seq<seq<int>>)
    ensures multiset(Flat(placed)) == Bag(placed)
  {
    if placed != [] {
      FlatBag(placed[1..]);
    }
  }

  lemma {:induction false} MembersOfBoth(ids: seq<int>, a: seq<int>, b: seq<int>)
    ensures MembersOf(ids, a + b) == MembersOf(ids, a) + MembersOf(ids, b)
  {
    if b == [] {
      assert a + b == a;
    } else {
      hide *;
      var n := |b| - 1;
      MembersOfBoth(ids, a, b[..n]);
      MembersOfLast(ids, b);
      InitOf(a, b);
      MembersOfLast(ids, a + b);
      BagAssoc(MembersOf(ids, a), MembersOf(ids, b[..n]), multiset(Members(ids, b[n])));
    }
  }

  lemma InitOf(a: seq<int>, b: seq<int>)
    requires b != []
    ensures (a + b)[..|a + b| - 1] == a + b[..|b| - 1] && (a + b)[|a + b| - 1] == b[|b| - 1]
  {
  }

  lemma BagAssoc<T>(x: multiset<T>, y: multiset<T>, z: multiset<T>)
    ensures (x + y) + z == x + (y + z)
  {
  }

  lemma MembersOfLast(ids: seq<int>, gs: seq<int>)
    requires gs != []
    ensures MembersOf(ids, gs) == MembersOf(ids, gs[..|gs| - 1]) + multiset(Members(ids, gs[|gs| - 1]))
  {
  }

  lemma {:induction false} ChunksBag(ids: seq<int>, placed: seq<seq<int>>, parts: seq<seq<nat>>)
    requires HoldsChunks(ids, placed, parts)
    ensures Bag(parts) == MembersOf(ids, Flat(placed))
  {
    if placed != [] {
      assert HoldsChunks(ids, placed[1..], parts[1..]);
      ChunksBag(ids, placed[1..], parts[1..]);
      ChunksHold(ids, placed[0]);
      MembersOfBoth(ids, placed[0], Flat(placed[1..]));
    }
  }

  lemma {:induction false} DistinctCount(gs: seq<int>, g: int)
    requires Distinct(gs)
    ensures multiset(gs)[g] <= 1
  {
    if gs != [] {
      var n := |gs| - 1;
      assert Distinct(gs[..n]) && gs[n] !in gs[..n];
      BagInit(gs);
      DistinctCount(gs[..n], g);
    }
  }

  lemma DistinctFrom(a: seq<int>, b: seq<int>)
    requires multiset(a) == multiset(b) && Distinct(b)
    ensures Distinct(a)
  {
    forall i, j | 0 <= i < j < |a| ensures a[i] != a[j] {
      DistinctCount(b, a[i]);
      BagWithout(a, i);
      assert (a[..i] + a[i + 1..])[j - 1] == a[j];
      assert a[j] in multiset(a[..i] + a[i + 1..]);
    }
  }

  lemma ListsFrom(a: seq<int>, b: seq<int>, ids: seq<int>)
    requires multiset(a) == multiset(b) && Lists(b, ids)
    ensures Lists(a, ids)
  {
    DistinctFrom(a, b);
    forall g | g in a ensures g in ids {
      assert g in multiset(b);
    }
    forall i | 0 <= i < |ids| ensures ids[i] in a {
      assert ids[i] in b && ids[i] in multiset(a);
    }
  }

  lemma NaturalExact(ids: seq<int>, unique: seq<int>, placed: seq<seq<int>>, parts: seq<seq<nat>>)
    requires IsNatural(ids, unique, placed, parts)
    ensures Exact(parts, |ids|)
  {
    FlatBag(placed);
    ListsFrom(Flat(placed), unique, ids);
    ChunksBag(ids, placed, parts);
    MembersOfAll(ids, Flat(placed));
  }

  /** Two samples of one group are never on two clients. */
  lemma NeverSplit(ids: seq<int>, unique: seq<int>, placed: seq<seq<int>>, parts: seq<seq<nat>>, k: nat, i: nat, j: nat)
    requires IsNatural(ids, unique, placed, parts) && k < |parts|
    requires i in parts[k] && i < |ids| && j < |ids| && ids[j] == ids[i]
    ensures j in parts[k]
  {
    ChunksHold(ids, placed[k]);
  }

  function Total<T>(parts: seq<seq<T>>): nat {
    if parts == [] then 0 else |parts[0]| + Total(parts[1..])
  }

  lemma {:induction false} TotalIs<T>(parts: seq<seq<T>>)
    ensures |Bag(parts)| == Total(parts)
  {
    if parts != [] {
      TotalIs(parts[1..]);
    }
  }

  /** If all have `x` and one has `d` more, together they have at least that. */
  lemma {:induction false} TotalAtLeast<T>(parts: seq<seq<T>>, x: nat, k: nat, d: nat)
    requires forall m | 0 <= m < |parts| :: |parts[m]| >= x
    requires k < |parts| ==> |parts[k]| >= x + d
    ensures Total(parts) >= |parts| * x + if k < |parts| then d else 0
  {
    if parts != [] {
      TotalAtLeast(parts[1..], x, if k == 0 then |parts| else k - 1, d);
      assert |parts| * x == x + |parts[1..]| * x;
    }
  }

  lemma {:induction false} TotalAtMost<T>(parts: seq<seq<T>>, k: nat)
    requires forall m | 0 <= m < |parts| :: |parts[m]| <= 1
    requires k < |parts| ==> parts[k] == []
    ensures Total(parts) <= |parts| - if k < |parts| then 1 else 0
  {
    if parts != [] {
      TotalAtMost(parts[1..], if k == 0 then |parts| else k - 1);
    }
  }

  lemma Placed<T>(placed: seq<seq<T>>, k: nat, g: T)
    requires k < |placed| && g in placed[k]
    ensures g in Bag(placed)
  {
    BagAt(placed, k);
  }

  lemma SizeSign(ids: seq<int>, g: int)
    requires g in ids
    ensures Size(ids, g) > 0
  {
    var i :| 0 <= i < |ids| && ids[i] == g;
    MembersAre(ids, g, i);
  }

  lemma NoLoad(ids: seq<int>, gs: seq<int>)
    requires Load(ids, gs) == 0 && forall g | g in gs :: g in ids
    ensures gs == []
  {
    if gs != [] {
      SizeSign(ids, gs[|gs| - 1]);
    }
  }

  /** With no more clients than groups, no client is left without samples. */
  lemma NoneEmpty(ids: seq<int>, unique: seq<int>, placed: seq<seq<int>>, parts: seq<seq<nat>>, k: nat)
    requires IsNatural(ids, unique, placed, parts) && |parts| <= |unique| && k < |parts|
    ensures parts[k] != []
  {
    forall m, g | 0 <= m < |placed| && g in placed[m] ensures g in ids {
      Placed(placed, m, g);
      assert g in multiset(unique);
    }
    if parts[k] == [] {
      NoLoad(ids, placed[k]);
      forall m | 0 <= m < |placed| ensures |placed[m]| <= 1 {
        assert FairAt(ids, placed, m, k);
        if placed[m] != [] {
          NoLoad(ids, placed[m][..|placed[m]| - 1]);
        }
      }
      TotalAtMost(placed, k);
      TotalIs(placed);
    }
  }

  /** With as many clients as groups, one group each. */
  lemma OneGroupEach(ids: seq<int>, unique: seq<int>, placed: seq<seq<int>>, parts: seq<seq<nat>>, k: nat)
    requires IsNatural(ids, unique, placed, parts) && |parts| == |unique| && k < |parts|
    ensures |placed[k]| == 1
  {
    forall m | 0 <= m < |placed| ensures |placed[m]| >= 1 {
      NoneEmpty(ids, unique, placed, parts, m);
    }
    if |placed[k]| > 1 {
      TotalAtLeast(placed, 1, k, 1);
      TotalIs(placed);
    }
  }

  lemma Scaled(n: nat, x: nat, last: nat, size: nat, total: nat)
    requires n > 0 && total >= n * x + last && last <= size
    ensures n * (x + last) <= total + (n - 1) * size
  {
    var m: nat := n - 1;
    assert m * size == m * last + m * (size - last);
    assert n * (x + last) == n * x + m * last + last;
  }

  lemma LastSmallest(ids: seq<int>, gs: seq<int>, a: nat)
    requires Descending(ids, gs) && a < |gs|
    ensures Size(ids, gs[|gs| - 1]) <= Size(ids, gs[a])
  {
  }

  lemma PartSizes(ids: seq<int>, unique: seq<int>, placed: seq<seq<int>>, parts: seq<seq<nat>>, k: nat)
    requires IsNatural(ids, unique, placed, parts) && k < |parts| && placed[k] != []
    ensures var gs := placed[k]; var n := |gs| - 1; var x := Load(ids, gs[..n]);
      && |parts[k]| == x + Size(ids, gs[n])
      && forall m | 0 <= m < |parts| :: |parts[m]| >= x
  {
    hide Bag, Size, Lists, LargestFirst, Chunks;
    var gs := placed[k];
    var n := |gs| - 1;
    LoadMore(ids, gs[..n], gs[n]);
    assert gs == gs[..n] + [gs[n]];
    forall m | 0 <= m < |parts| ensures |parts[m]| >= Load(ids, gs[..n]) {
      assert FairAt(ids, placed, k, m);
    }
  }

  lemma AllSamples(ids: seq<int>, unique: seq<int>, placed: seq<seq<int>>, parts: seq<seq<nat>>)
    requires IsNatural(ids, unique, placed, parts)
    ensures Total(parts) == |ids|
  {
    NaturalExact(ids, unique, placed, parts);
    TotalIs(parts);
    assert |multiset(Range(|ids|))| == |ids|;
  }

  /** No client has more than an equal share of the samples by more than (1 - 1/n) of any one of its
      own groups: `load <= total / n + (1 - 1 / n) * size`. */
  lemma GreedyBound(ids: seq<int>, unique: seq<int>, placed: seq<seq<int>>, parts: seq<seq<nat>>, k: nat, a: nat)
    requires IsNatural(ids, unique, placed, parts) && k < |parts| && a < |placed[k]|
    ensures |parts| * |parts[k]| <= |ids| + (|parts| - 1) * Size(ids, placed[k][a])
  {
    var gs := placed[k];
    var n := |gs| - 1;
    var x, last := Load(ids, gs[..n]), Size(ids, gs[n]);
    AllSamples(ids, unique, placed, parts);
    PartSizes(ids, unique, placed, parts, k);
    LastSmallest(ids, gs, a);
    hide *;
    TotalAtLeast(parts, x, k, last);
    Scaled(|parts|, x, last, Size(ids, gs[a]), |ids|);
  }

  // ── the front door ───────────────────────────────────────────────────────────

  predicate Sorted(s: seq<nat>) {
    forall a, b | 0 <= a < b < |s| :: s[a] <= s[b]
  }

  function Insert(s: seq<nat>, x: nat): seq<nat> {
    if s == [] || s[|s| - 1] <= x then s + [x] else Insert(s[..|s| - 1], x) + [s[|s| - 1]]
  }

  /** `np.sort`. */
  function Sort(s: seq<nat>): seq<nat> {
    if s == [] then [] else Insert(Sort(s[..|s| - 1]), s[|s| - 1])
  }

  lemma {:induction false} Inserted(s: seq<nat>, x: nat)
    requires Sorted(s)
    ensures multiset(Insert(s, x)) == multiset(s) + multiset([x]) && Sorted(Insert(s, x))
    ensures forall y | y in Insert(s, x) :: y in s || y == x
  {
    if s != [] && x < s[|s| - 1] {
      var n := |s| - 1;
      Inserted(s[..n], x);
      BagInit(s);
      var r := Insert(s[..n], x);
      forall a | 0 <= a < |r| ensures r[a] <= s[n] {
        assert r[a] in r;
      }
    }
  }

  lemma {:induction false} SortIs(s: seq<nat>)
    ensures multiset(Sort(s)) == multiset(s) && Sorted(Sort(s))
  {
    if s != [] {
      SortIs(s[..|s| - 1]);
      Inserted(Sort(s[..|s| - 1]), s[|s| - 1]);
      BagInit(s);
    }
  }

  function SortAll(parts: seq<seq<nat>>): (r: seq<seq<nat>>)
    ensures |r| == |parts| && forall k | 0 <= k < |r| :: r[k] == Sort(parts[k])
  {
    if parts == [] then [] else [Sort(parts[0])] + SortAll(parts[1..])
  }

  lemma {:induction false} SortAllBag(parts: seq<seq<nat>>)
    ensures Bag(SortAll(parts)) == Bag(parts)
  {
    if parts != [] {
      SortIs(parts[0]);
      SortAllBag(parts[1..]);
    }
  }

  /** The method named, its parameters, and what the generator draws for it. */
  datatype Recipe =
    | Iid(shuffle: seq<nat>)
    | ByDirichlet(alpha: real, minSize: int, tries: seq<seq<ClassDraw>>)
    | ByShards(each: nat, order: seq<nat>, pick: seq<nat>)
    | ByQuantity(beta: real, minSize: int, shuffle: seq<nat>, shares: seq<seq<real>>)
    | ByGroups(groups: Option<seq<int>>, unique: seq<int>)
    | Unregistered

  ghost predicate Drawn(recipe: Recipe, labels: seq<int>, n: nat) {
    match recipe
    case Iid(shuffle) => Shuffle(shuffle, |labels|)
    case ByDirichlet(_, _, tries) => forall t | 0 <= t < |tries| :: SoundTry(labels, n, tries[t])
    case ByShards(each, order, pick) => Shuffle(order, |labels|) && Shuffle(pick, n * each)
    case ByQuantity(_, _, shuffle, shares) =>
      Shuffle(shuffle, |labels|) && forall t | 0 <= t < |shares| :: Shares(shares[t], n)
    case ByGroups(groups, unique) => groups.Some? ==> Lists(unique, groups.value)
    case Unregistered => true
  }

  /** Why the method refuses, if it does. */
  ghost function Refusal(recipe: Recipe, labels: seq<int>, n: nat): Option<Error>
  {
    match recipe
    case Iid(_) => None
    case ByDirichlet(alpha, minSize, tries) =>
      if alpha <= 0.0 then Some(BadConcentration)
      else if forall t | 0 <= t < |tries| :: DealtTooFew(labels, n, minSize, tries[t]) then Some(NoSplitFound)
      else None
    case ByShards(each, _, _) =>
      if n * each > |labels| then Some(TooManyShards) else if each == 0 then Some(NoShards) else None
    case ByQuantity(beta, minSize, shuffle, shares) =>
      if beta <= 0.0 then Some(BadConcentration)
      else if forall t | 0 <= t < |shares| :: TooSmall(shuffle, minSize, shares[t]) then Some(NoSplitFound)
      else None
    case ByGroups(groups, unique) =>
      if groups.None? then Some(GroupsMissing)
      else if |groups.value| != |labels| then Some(GroupsMismatch)
      else if n > |unique| then Some(FewerGroupsThanClients)
      else None
    case Unregistered => Some(UnknownPartitioner)
  }

  // ── what each method deals to whom ───────────────────────────────────────────

  /** Near-equal runs of the shuffle, the first ones one longer. */
  ghost predicate IidParts(shuffle: seq<nat>, n: nat, parts: seq<seq<nat>>)
    requires 0 < n == |parts|
  {
    forall k: nat | k < n :: IsSection(shuffle, n, k, parts[k])
  }

  ghost predicate IsSection(shuffle: seq<nat>, n: nat, k: nat, part: seq<nat>)
    requires n > 0
  {
    var lo, hi := Section(|shuffle|, n, k), Section(|shuffle|, n, k + 1);
    lo <= hi <= |shuffle| && multiset(part) == multiset(shuffle[lo..hi])
  }

  /** The chunks of the first draw that leaves no client short. */
  ghost predicate DirichletParts(labels: seq<int>, minSize: int, tries: seq<seq<ClassDraw>>, parts: seq<seq<nat>>)
  {
    exists t: nat :: t < |tries| && FirstDealt(labels, |parts|, minSize, tries, t) &&
      SameBags(parts, Dealt(labels, |parts|, tries[t]))
  }

  ghost predicate SameBags(a: seq<seq<nat>>, b: seq<seq<nat>>) {
    |a| == |b| && forall k: nat | k < |a| :: multiset(a[k]) == multiset(b[k])
  }

  /** The shards of a row of the pick, out of near-equal runs of the samples in label order. */
  ghost predicate ShardParts(labels: seq<int>, each: nat, order: seq<nat>, pick: seq<nat>, parts: seq<seq<nat>>) {
    && 0 < |parts| * each == |pick| && Below(pick, |pick|) && Below(order, |labels|)
    && var shards := ArraySplit(ByLabel(labels, order), |pick|);
       forall k: nat | k < |parts| :: IsRow(shards, pick, each, k, parts[k])
  }

  ghost predicate IsRow(shards: seq<seq<nat>>, pick: seq<nat>, each: nat, k: nat, part: seq<nat>)
    requires Below(pick, |shards|)
  {
    && 0 <= k * each <= (k + 1) * each <= |pick|
    && multiset(part) == multiset(Picked(shards, pick[k * each..(k + 1) * each]))
  }

  /** The shuffle cut by the first shares that leave no client short. */
  ghost predicate QuantityParts(minSize: int, shuffle: seq<nat>, shares: seq<seq<real>>, parts: seq<seq<nat>>) {
    exists t: nat :: t < |shares| && FirstFit(shuffle, minSize, shares, t) && SameBags(parts, Cut(shuffle, shares[t]))
  }

  /** Whole groups, placed greedily: no group on two clients, nobody without samples, and no load above
      an equal share by more than (1 - 1/n) of any of its groups. */
  ghost predicate GroupParts(ids: seq<int>, unique: seq<int>, parts: seq<seq<nat>>) {
    && (exists placed, ks :: GreedyRun(ids, unique, placed, ks) && HoldsGroups(ids, placed, parts))
    && (forall k, i, j | 0 <= k < |parts| && i in parts[k] && i < |ids| && 0 <= j < |ids| && ids[j] == ids[i] ::
          j in parts[k])
    && (forall k | 0 <= k < |parts| :: parts[k] != [])
    && (forall k, i | 0 <= k < |parts| && i in parts[k] && i < |ids| ::
          |parts| * |parts[k]| <= |ids| + (|parts| - 1) * |Members(ids, ids[i])|)
  }

  /** Client `k` holds the samples of its groups. */
  ghost predicate HoldsGroups(ids: seq<int>, placed: seq<seq<int>>, parts: seq<seq<nat>>) {
    && |placed| == |parts|
    && forall k, i: nat | 0 <= k < |parts| :: i in parts[k] <==> i < |ids| && ids[i] in placed[k]
  }

  /** Whose samples are whose, by the method's own rule. */
  ghost predicate DealtBy(recipe: Recipe, labels: seq<int>, parts: seq<seq<nat>>)
    requires parts != []
  {
    match recipe
    case Iid(shuffle) => IidParts(shuffle, |parts|, parts)
    case ByDirichlet(_, minSize, tries) => DirichletParts(labels, minSize, tries, parts)
    case ByShards(each, order, pick) => ShardParts(labels, each, order, pick, parts)
    case ByQuantity(_, minSize, shuffle, shares) => QuantityParts(minSize, shuffle, shares, parts)
    case ByGroups(groups, unique) => groups.Some? && GroupParts(groups.value, unique, parts)
    case Unregistered => false
  }

  lemma IidPart(shuffle: seq<nat>, n: nat, k: nat)
    requires k < n
    ensures Section(|shuffle|, n, k) <= Section(|shuffle|, n, k + 1) <= |shuffle|
    ensures ArraySplit(shuffle, n)[k] == shuffle[Section(|shuffle|, n, k)..Section(|shuffle|, n, k + 1)]
  {
    SectionEnd(|shuffle|, n);
    SectionMonotone(|shuffle|, n, k, k + 1);
    SectionMonotone(|shuffle|, n, k + 1, n);
    ArraySplitPart(shuffle, n, k);
    hide Section, ArraySplit;
    var lo, part := Section(|shuffle|, n, k), ArraySplit(shuffle, n)[k];
    forall i: nat | i < |part| ensures part[i] == shuffle[lo + i] { ArraySplitAt(shuffle, n, k, i); }
    assert part == shuffle[lo..lo + |part|];
  }

  lemma IidIs(shuffle: seq<nat>, n: nat)
    requires n > 0
    ensures IidParts(shuffle, n, ArraySplit(shuffle, n))
  {
    hide Section, ArraySplit;
    forall k: nat | k < n ensures IsSection(shuffle, n, k, ArraySplit(shuffle, n)[k]) { IidPart(shuffle, n, k); }
  }

  lemma ShardsAre(labels: seq<int>, n: nat, each: nat, order: seq<nat>, pick: seq<nat>, parts: seq<seq<nat>>)
    requires AreShards(labels, n, each, order, pick, parts)
    ensures |parts| == n && ShardParts(labels, each, order, pick, parts)
  {
    hide Rows, Picked, ByLabel, ArraySplit;
    forall k: nat | k < n ensures IsRow(ArraySplit(ByLabel(labels, order), |pick|), pick, each, k, parts[k]) {
      RowAt(ArraySplit(ByLabel(labels, order), |pick|), pick, n, each, k);
    }
  }

  lemma GroupsAre(ids: seq<int>, unique: seq<int>, placed: seq<seq<int>>, parts: seq<seq<nat>>, ks: seq<nat>)
    requires IsNatural(ids, unique, placed, parts) && GreedyRun(ids, unique, placed, ks) && 0 < |parts| <= |unique|
    ensures GroupParts(ids, unique, parts)
  {
    hide GreedyRun;
    forall k, i: nat | 0 <= k < |parts| ensures i in parts[k] <==> i < |ids| && ids[i] in placed[k] {
      ChunksHold(ids, placed[k]);
    }
    hide Chunks, Bag, Fair, LargestFirst, Lists;
    assert HoldsGroups(ids, placed, parts);
    forall k | 0 <= k < |parts| ensures parts[k] != [] { NoneEmpty(ids, unique, placed, parts, k); }
    forall k, i | 0 <= k < |parts| && i in parts[k] && i < |ids|
      ensures |parts| * |parts[k]| <= |ids| + (|parts| - 1) * |Members(ids, ids[i])|
    {
      var a :| 0 <= a < |placed[k]| && placed[k][a] == ids[i];
      GreedyBound(ids, unique, placed, parts, k, a);
    }
  }

  lemma SameIn(a: seq<nat>, b: seq<nat>)
    requires multiset(a) == multiset(b)
    ensures |a| == |b| && forall i :: i in a <==> i in b
  {
    assert |multiset(a)| == |a| && |multiset(b)| == |b|;
    forall i ensures i in a <==> i in b { assert i in multiset(a) <==> i in multiset(b); }
  }

  lemma SameGroups(ids: seq<int>, unique: seq<int>, a: seq<seq<nat>>, b: seq<seq<nat>>)
    requires SameBags(a, b) && GroupParts(ids, unique, a)
    ensures GroupParts(ids, unique, b)
  {
    hide GreedyRun, Members;
    forall k: nat | k < |a| ensures |a[k]| == |b[k]| && forall i :: i in a[k] <==> i in b[k] { SameIn(a[k], b[k]); }
    var placed, ks :| GreedyRun(ids, unique, placed, ks) && HoldsGroups(ids, placed, a);
    assert HoldsGroups(ids, placed, b);
  }

  lemma SameDirichlet(labels: seq<int>, minSize: int, tries: seq<seq<ClassDraw>>, a: seq<seq<nat>>, b: seq<seq<nat>>)
    requires SameBags(a, b) && DirichletParts(labels, minSize, tries, a)
    ensures DirichletParts(labels, minSize, tries, b)
  {
    hide AtLeast, Dealt, DealtTooFew;
    var t: nat :|
      t < |tries| && FirstDealt(labels, |a|, minSize, tries, t) && SameBags(a, Dealt(labels, |a|, tries[t]));
    assert SameBags(b, Dealt(labels, |b|, tries[t]));
  }

  lemma SameQuantity(minSize: int, shuffle: seq<nat>, shares: seq<seq<real>>, a: seq<seq<nat>>, b: seq<seq<nat>>)
    requires SameBags(a, b) && QuantityParts(minSize, shuffle, shares, a)
    ensures QuantityParts(minSize, shuffle, shares, b)
  {
    hide AtLeast, Cut, TooSmall;
    var t: nat :| t < |shares| && FirstFit(shuffle, minSize, shares, t) && SameBags(a, Cut(shuffle, shares[t]));
    assert SameBags(b, Cut(shuffle, shares[t]));
  }

  lemma SameRows(labels: seq<int>, each: nat, order: seq<nat>, pick: seq<nat>, a: seq<seq<nat>>, b: seq<seq<nat>>)
    requires SameBags(a, b) && ShardParts(labels, each, order, pick, a)
    ensures ShardParts(labels, each, order, pick, b)
  {
    hide ArraySplit, ByLabel, Picked, Below;
    var shards := ArraySplit(ByLabel(labels, order), |pick|);
    forall k: nat | k < |b| ensures IsRow(shards, pick, each, k, b[k]) { assert IsRow(shards, pick, each, k, a[k]); }
  }

  /** Sorting a client's samples leaves it the same ones. */
  lemma SortedDealt(recipe: Recipe, labels: seq<int>, a: seq<seq<nat>>, b: seq<seq<nat>>)
    requires SameBags(a, b) && a != [] && DealtBy(recipe, labels, a)
    ensures DealtBy(recipe, labels, b)
  {
    hide Section, DirichletParts, QuantityParts, ShardParts, GroupParts;
    match recipe
    case Iid(_) =>
    case ByDirichlet(_, minSize, tries) => SameDirichlet(labels, minSize, tries, a, b);
    case ByShards(each, order, pick) => SameRows(labels, each, order, pick, a, b);
    case ByQuantity(_, minSize, shuffle, shares) => SameQuantity(minSize, shuffle, shares, a, b);
    case ByGroups(groups, unique) => SameGroups(groups.value, unique, a, b);
  }

  /** The method's own parts, before they are sorted. */
  method Parts(labels: seq<int>, n: nat, recipe: Recipe) returns (r: Result<seq<seq<nat>>>)
    requires n > 0 && !recipe.Unregistered? && Drawn(recipe, labels, n)
    ensures r.Ok? ==> |r.value| == n && Exact(r.value, |labels|)
    ensures match Refusal(recipe, labels, n) case Some(e) => r == Err(e) case None => r.Ok?
    ensures r.Ok? ==> DealtBy(recipe, labels, r.value)
  {
    hide IidParts, ShardParts, GroupParts, GreedyRun, IsNatural, AreShards, Dealt, Cut, SoundTry, AtLeast;
    match recipe
    case Iid(shuffle) =>
      ArraySplitExact(shuffle, n);
      IidIs(shuffle, n);
      r := Ok(ArraySplit(shuffle, n));
    case ByDirichlet(alpha, minSize, tries) =>
      r := Dirichlet(labels, n, alpha, minSize, tries);
    case ByShards(each, order, pick) =>
      Arithmetic.NextMultiple(0, n, each);
      r := Shards(labels, n, each, order, pick);
      if r.Ok? { ShardsAre(labels, n, each, order, pick, r.value); }
    case ByQuantity(beta, minSize, shuffle, shares) =>
      ShuffleSize(shuffle, |labels|);
      r := Quantity(n, beta, minSize, shuffle, shares);
    case ByGroups(groups, unique) =>
      var placed;
      ghost var ks;
      r, placed, ks := Natural(|labels|, groups, n, unique);
      if r.Ok? {
        NaturalExact(groups.value, unique, placed, r.value);
        GroupsAre(groups.value, unique, placed, r.value, ks);
      }
  }

  /** The checks of `partition`, in order, then the method's own. */
  ghost function FirstRefusal(recipe: Recipe, labels: seq<int>, n: int): Option<Error> {
    if recipe.Unregistered? then Some(UnknownPartitioner)
    else if n < 1 then Some(NoClients)
    else if n > |labels| then Some(FewerSamplesThanClients)
    else Refusal(recipe, labels, n)
  }

  /** `partition`: an error, or one ascending list of indices for each client, every sample on exactly
      one of them, dealt out as the method named does. */
  method Partition(labels: seq<int>, n: int, recipe: Recipe) returns (r: Result<seq<seq<nat>>>)
    requires n > 0 ==> Drawn(recipe, labels, n)
    ensures match FirstRefusal(recipe, labels, n) case Some(e) => r == Err(e) case None => r.Ok?
    ensures r.Ok? ==>
      && |r.value| == n > 0 && Exact(r.value, |labels|) && DealtBy(recipe, labels, r.value)
      && forall k | 0 <= k < n :: Sorted(r.value[k])
    ensures r.Ok? && recipe.Iid? ==>
      forall k | 0 <= k < n :: |r.value[k]| == |labels| / n + if k < |labels| % n then 1 else 0
  {
    assert n > 0 && recipe.Iid? ==> Shuffle(recipe.shuffle, |labels|);
    hide DealtBy, Drawn, Refusal, Exact, Shuffle;
    if recipe.Unregistered? {
      return Err(UnknownPartitioner);
    }
    if n < 1 {
      return Err(NoClients);
    }
    if n > |labels| {
      return Err(FewerSamplesThanClients);
    }
    var parts := Parts(labels, n, recipe);
    match parts
    case Err(e) => return Err(e);
    case Ok(ps) =>
      SortedExact(ps, |labels|);
      SortedDealt(recipe, labels, ps, SortAll(ps));
      if recipe.Iid? {
        forall k | 0 <= k < n
          ensures |SortAll(ps)[k]| == |labels| / n + if k < |labels| % n then 1 else 0
        {
          IidSizes(labels, recipe.shuffle, SortAll(ps), k);
        }
      }
      return Ok(SortAll(ps));
  }

  lemma SortedExact(parts: seq<seq<nat>>, n: nat)
    requires Exact(parts, n)
    ensures Exact(SortAll(parts), n) && SameBags(parts, SortAll(parts))
    ensures forall k | 0 <= k < |parts| :: Sorted(SortAll(parts)[k])
  {
    SortAllBag(parts);
    forall k | 0 <= k < |parts| ensures multiset(parts[k]) == multiset(SortAll(parts)[k]) && Sorted(SortAll(parts)[k]) {
      SortIs(parts[k]);
    }
  }

  /** An `iid` split is near-equal. */
  lemma IidSizes(labels: seq<int>, shuffle: seq<nat>, parts: seq<seq<nat>>, k: nat)
    requires k < |parts| && Shuffle(shuffle, |labels|) && DealtBy(Iid(shuffle), labels, parts)
    ensures |parts[k]| == |labels| / |parts| + if k < |labels| % |parts| then 1 else 0
  {
    ShuffleSize(shuffle, |labels|);
    SectionStep(|labels|, |parts|, k);
    hide Section;
    var lo, hi := Section(|shuffle|, |parts|, k), Section(|shuffle|, |parts|, k + 1);
    SameIn(parts[k], shuffle[lo..hi]);
  }
}
