/** The label-inference AUC: a rank sum over tie groups, proved equal to counting pairs. */
module Auc {
  import opened Sequences
  import opened Wrappers

  // ── the rank sum, as it is computed ──────────────────────────────────────────

  function Count(s: seq<real>, v: real): nat {
    if s == [] then 0 else Count(s[..|s| - 1], v) + if s[|s| - 1] == v then 1 else 0
  }

  /** The values of `us` up to index `j` together occur this often in `s`: `counts.cumsum(0)[j]`. */
  function CumulativeCount(s: seq<real>, us: seq<real>, j: nat): nat
    requires j < |us|
  {
    Count(s, us[j]) + if j == 0 then 0 else CumulativeCount(s, us, j - 1)
  }

  /** `torch.unique`: the values of `s`, once each, ascending. */
  ghost predicate IsUnique(s: seq<real>, us: seq<real>) {
    && (forall a, b | 0 <= a < b < |us| :: us[a] < us[b])
    && (forall v :: v in us <==> v in s)
  }

  function Insert(us: seq<real>, v: real): (r: seq<real>)
  {
    if us == [] then [v]
    else
      var last := us[|us| - 1];
      if last < v then us + [v]
      else if last == v then us
      else Insert(us[..|us| - 1], v) + [last]
  }

  function Unique(s: seq<real>): seq<real> {
    if s == [] then [] else Insert(Unique(s[..|s| - 1]), s[|s| - 1])
  }

  predicate Ascending(us: seq<real>) {
    forall a, b | 0 <= a < b < |us| :: us[a] < us[b]
  }

  lemma {:induction false} InsertIs(us: seq<real>, v: real)
    requires Ascending(us)
    ensures Ascending(Insert(us, v)) && forall x :: x in Insert(us, v) <==> x in us || x == v
    ensures forall x | x in us :: x in Insert(us, v)
  {
    if us != [] && v < us[|us| - 1] {
      var init, last := us[..|us| - 1], us[|us| - 1];
      InsertIs(init, v);
      assert us == init + [last];
      var r := Insert(init, v);
      forall a | 0 <= a < |r| ensures r[a] < last { assert r[a] in r; }
    }
  }

  lemma {:induction false} UniqueIs(s: seq<real>)
    ensures IsUnique(s, Unique(s)) && Ascending(Unique(s))
  {
    if s != [] {
      UniqueIs(s[..|s| - 1]);
      InsertIs(Unique(s[..|s| - 1]), s[|s| - 1]);
      assert s == s[..|s| - 1] + [s[|s| - 1]];
    }
  }

  /** `avg_rank[inv]`: the mean 1-based rank of the ties of `v`. */
  function Rank(s: seq<real>, v: real): real
    requires v in Unique(s)
  {
    var j := IndexOf(Unique(s), v);
    CumulativeCount(s, Unique(s), j) as real - (Count(s, v) as real - 1.0) / 2.0
  }

  /** The scores of one class. */
  function Class(s: seq<real>, y: seq<bool>, c: bool): seq<real>
    requires |s| == |y|
  {
    if s == [] then []
    else Class(s[..|s| - 1], y[..|y| - 1], c) + if y[|y| - 1] == c then [s[|s| - 1]] else []
  }

  lemma {:induction false} ClassIn(s: seq<real>, y: seq<bool>, c: bool)
    requires |s| == |y|
    ensures forall v | v in Class(s, y, c) :: v in s
  {
    if s != [] {
      ClassIn(s[..|s| - 1], y[..|y| - 1], c);
      assert s == s[..|s| - 1] + [s[|s| - 1]];
    }
  }

  function RankSum(s: seq<real>, ps: seq<real>): real
    requires forall v | v in ps :: v in Unique(s)
  {
    if ps == [] then 0.0
    else
      var init, last := ps[..|ps| - 1], ps[|ps| - 1];
      assert last in ps && forall v | v in init :: v in ps;
      RankSum(s, init) + Rank(s, last)
  }

  /** What `n` scores rank among themselves: `1 + 2 + ... + n`. */
  function OwnRanks(n: nat): real {
    n as real * (n as real + 1.0) / 2.0
  }

  /** `x` out of all pairs of `n` and `m` scores. */
  function Share(x: real, n: nat, m: nat): real
    requires n > 0 && m > 0
  {
    x / (n as real * m as real)
  }

  /** `auc`; none when a class is absent. */
  function AreaUnderCurve(s: seq<real>, y: seq<bool>): Option<real>
    requires |s| == |y|
  {
    var ps, ns := Class(s, y, true), Class(s, y, false);
    if |ps| == 0 || |ns| == 0 then None
    else
      ClassIn(s, y, true);
      UniqueIs(s);
      Some(Share(RankSum(s, ps) - OwnRanks(|ps|), |ps|, |ns|))
  }

  // ── counting pairs ───────────────────────────────────────────────────────────

  /** A pair counts one if the first score is higher, one half if they are tied. */
  function Win(a: real, b: real): real {
    if a > b then 1.0 else if a == b then 0.5 else 0.0
  }

  function Wins(v: real, s: seq<real>): real {
    if s == [] then 0.0 else Wins(v, s[..|s| - 1]) + Win(v, s[|s| - 1])
  }

  function Pairs(ps: seq<real>, ns: seq<real>): real {
    if ps == [] then 0.0 else Pairs(ps[..|ps| - 1], ns) + Wins(ps[|ps| - 1], ns)
  }

  // ── the two agree ────────────────────────────────────────────────────────────

  function Below(s: seq<real>, v: real): nat {
    if s == [] then 0 else Below(s[..|s| - 1], v) + if s[|s| - 1] < v then 1 else 0
  }

  lemma {:induction false} WinsAreCounts(v: real, s: seq<real>)
    ensures Wins(v, s) == Below(s, v) as real + Count(s, v) as real / 2.0
  {
    if s != [] { WinsAreCounts(v, s[..|s| - 1]); }
  }

  /** The values up to index `j` are all that is at most `us[j]`. */
  lemma {:induction false} CumulativeIsBelow(s: seq<real>, us: seq<real>, j: nat)
    requires Ascending(us) && j < |us| && forall v | v in s :: v in us
    ensures CumulativeCount(s, us, j) == Below(s, us[j]) + Count(s, us[j])
  {
    if j == 0 {
      NothingBelow(s, us);
    } else {
      CumulativeIsBelow(s, us, j - 1);
      NextValue(s, us, j);
    }
  }

  lemma {:induction false} NothingBelow(s: seq<real>, us: seq<real>)
    requires Ascending(us) && us != [] && forall v | v in s :: v in us
    ensures Below(s, us[0]) == 0
  {
    if s != [] {
      assert s == s[..|s| - 1] + [s[|s| - 1]];
      assert s[|s| - 1] in s;
      var a := IndexOf(us, s[|s| - 1]);
      NothingBelow(s[..|s| - 1], us);
    }
  }

  lemma {:induction false} NextValue(s: seq<real>, us: seq<real>, j: nat)
    requires Ascending(us) && 0 < j < |us| && forall v | v in s :: v in us
    ensures Below(s, us[j]) == Below(s, us[j - 1]) + Count(s, us[j - 1])
  {
    if s != [] {
      assert s == s[..|s| - 1] + [s[|s| - 1]];
      assert s[|s| - 1] in s;
      var a := IndexOf(us, s[|s| - 1]);
      NextValue(s[..|s| - 1], us, j);
      if a < j - 1 { assert us[a] < us[j - 1]; }
    }
  }

  /** A rank is the pairs won against all scores, the own one included, and one half. */
  lemma RankIsWins(s: seq<real>, v: real)
    requires v in Unique(s)
    ensures Rank(s, v) == Wins(v, s) + 0.5
  {
    UniqueIs(s);
    CumulativeIsBelow(s, Unique(s), IndexOf(Unique(s), v));
    WinsAreCounts(v, s);
  }

  lemma {:induction false} WinsSplit(v: real, s: seq<real>, y: seq<bool>)
    requires |s| == |y|
    ensures Wins(v, s) == Wins(v, Class(s, y, true)) + Wins(v, Class(s, y, false))
  {
    if s != [] {
      var s', y', c := s[..|s| - 1], y[..|y| - 1], y[|y| - 1];
      WinsSplit(v, s', y');
      WinsSnoc(v, Class(s', y', c), s[|s| - 1]);
      assert Class(s', y', !c) + [] == Class(s', y', !c);
    }
  }

  lemma WinsSnoc(v: real, s: seq<real>, x: real)
    ensures Wins(v, s + [x]) == Wins(v, s) + Win(v, x)
  {
    assert (s + [x])[..|s|] == s;
  }

  lemma {:induction false} RankSumIsPairs(s: seq<real>, y: seq<bool>, ps: seq<real>)
    requires |s| == |y| && forall v | v in ps :: v in Unique(s)
    ensures RankSum(s, ps) == Pairs(ps, Class(s, y, false)) + Pairs(ps, Class(s, y, true)) + |ps| as real / 2.0
  {
    if ps != [] {
      var init, last := ps[..|ps| - 1], ps[|ps| - 1];
      assert last in ps && forall v | v in init :: v in ps;
      RankSumIsPairs(s, y, init);
      RankIsWins(s, last);
      WinsSplit(last, s, y);
    }
  }

  lemma {:induction false} PairsSnoc(ps: seq<real>, ns: seq<real>, x: real)
    ensures Pairs(ps, ns + [x]) == Pairs(ps, ns) + Column(ps, x)
  {
    if ps != [] {
      PairsSnoc(ps[..|ps| - 1], ns, x);
      WinsSnoc(ps[|ps| - 1], ns, x);
    }
  }

  /** What the scores `ps` win against `x`. */
  function Column(ps: seq<real>, x: real): real {
    if ps == [] then 0.0 else Column(ps[..|ps| - 1], x) + Win(ps[|ps| - 1], x)
  }

  /** Against each other, two lists win every pair once. */
  lemma {:induction false} BothWays(ps: seq<real>, x: real)
    ensures Column(ps, x) + Wins(x, ps) == |ps| as real
  {
    if ps != [] { BothWays(ps[..|ps| - 1], x); }
  }

  function HalfSquare(n: nat): real {
    n as real * n as real / 2.0
  }

  lemma HalfSquareNext(n: nat)
    ensures HalfSquare(n + 1) == HalfSquare(n) + n as real + 0.5
  {
  }

  lemma OwnRanksIs(n: nat)
    ensures OwnRanks(n) == HalfSquare(n) + n as real / 2.0
  {
    var x := n as real;
    assert x * (x + 1.0) == x * x + x;
  }

  /** Among themselves, `n` scores win half of the `n * n` pairs. */
  lemma {:induction false} SelfPairs(ps: seq<real>)
    ensures Pairs(ps, ps) == HalfSquare(|ps|)
  {
    if ps != [] {
      var init, last := ps[..|ps| - 1], ps[|ps| - 1];
      SelfPairs(init);
      PairsSnoc(init, init, last);
      BothWays(init, last);
      WinsSnoc(last, init, last);
      assert ps == init + [last];
      HalfSquareNext(|init|);
      hide HalfSquare;
    }
  }

  lemma WithoutSelfPairs(s: seq<real>, y: seq<bool>)
    requires |s| == |y| && forall v | v in Class(s, y, true) :: v in Unique(s)
    ensures RankSum(s, Class(s, y, true)) - OwnRanks(|Class(s, y, true)|) ==
        Pairs(Class(s, y, true), Class(s, y, false))
  {
    hide Class, Pairs, RankSum, Unique, OwnRanks, HalfSquare;
    var ps := Class(s, y, true);
    RankSumIsPairs(s, y, ps);
    SelfPairs(ps);
    OwnRanksIs(|ps|);
  }

  // ── the pairs, as positions ──────────────────────────────────────────────────

  /** The positions of one class among the first `n`. */
  ghost function Indices(y: seq<bool>, c: bool, n: nat): set<nat>
    requires n <= |y|
  {
    set i: nat | i < n && y[i] == c
  }

  /** Positive and negative positions of which the positive one, among the first `n`, scores higher. */
  ghost function Above(s: seq<real>, y: seq<bool>, n: nat): set<(nat, nat)>
    requires n <= |s| == |y|
  {
    set i: nat, j: nat | i < n && j < |s| && y[i] && !y[j] && s[i] > s[j] :: (i, j)
  }

  /** Those that score the same. */
  ghost function Level(s: seq<real>, y: seq<bool>, n: nat): set<(nat, nat)>
    requires n <= |s| == |y|
  {
    set i: nat, j: nat | i < n && j < |s| && y[i] && !y[j] && s[i] == s[j] :: (i, j)
  }

  ghost function Lower(s: seq<real>, y: seq<bool>, v: real, m: nat): set<nat>
    requires m <= |s| == |y|
  {
    set j: nat | j < m && !y[j] && v > s[j]
  }

  ghost function Same(s: seq<real>, y: seq<bool>, v: real, m: nat): set<nat>
    requires m <= |s| == |y|
  {
    set j: nat | j < m && !y[j] && v == s[j]
  }

  lemma ClassStep(s: seq<real>, y: seq<bool>, c: bool, m: nat)
    requires m < |s| == |y|
    ensures Class(s[..m + 1], y[..m + 1], c) == Class(s[..m], y[..m], c) + if y[m] == c then [s[m]] else []
  {
    assert s[..m + 1][..m] == s[..m] && y[..m + 1][..m] == y[..m];
  }

  lemma {:induction false} ClassSize(s: seq<real>, y: seq<bool>, c: bool, m: nat)
    requires m <= |s| == |y|
    ensures |Class(s[..m], y[..m], c)| == |Indices(y, c, m)|
  {
    if m > 0 {
      ClassSize(s, y, c, m - 1);
      ClassStep(s, y, c, m - 1);
      hide Class;
      var before := Indices(y, c, m - 1);
      assert Indices(y, c, m) == if y[m - 1] == c then before + {m - 1} else before;
    }
  }

  lemma OneMore(s: seq<real>, y: seq<bool>, v: real, m: nat)
    requires m < |s| == |y|
    ensures |Lower(s, y, v, m + 1)| == |Lower(s, y, v, m)| + if !y[m] && v > s[m] then 1 else 0
    ensures |Same(s, y, v, m + 1)| == |Same(s, y, v, m)| + if !y[m] && v == s[m] then 1 else 0
  {
    var low, same := Lower(s, y, v, m), Same(s, y, v, m);
    assert Lower(s, y, v, m + 1) == if !y[m] && v > s[m] then low + {m} else low;
    assert Same(s, y, v, m + 1) == if !y[m] && v == s[m] then same + {m} else same;
  }

  lemma {:induction false} WinsCounted(s: seq<real>, y: seq<bool>, v: real, m: nat)
    requires m <= |s| == |y|
    ensures Wins(v, Class(s[..m], y[..m], false)) == |Lower(s, y, v, m)| as real + |Same(s, y, v, m)| as real / 2.0
  {
    if m > 0 {
      hide Class, Wins, Lower, Same;
      var ns := Class(s[..m - 1], y[..m - 1], false);
      WinsCounted(s, y, v, m - 1);
      ClassStep(s, y, false, m - 1);
      OneMore(s, y, v, m - 1);
      WinsSnoc(v, ns, s[m - 1]);
      assert ns + [] == ns;
    }
  }

  ghost function With(n: nat, js: set<nat>): set<(nat, nat)> {
    set j | j in js :: (n, j)
  }

  lemma {:induction false} WithSize(n: nat, js: set<nat>)
    ensures |With(n, js)| == |js|
  {
    if js != {} {
      var j :| j in js;
      WithSize(n, js - {j});
      assert With(n, js) == With(n, js - {j}) + {(n, j)};
    }
  }

  /** One more row of pairs. */
  lemma RowsGrow(s: seq<real>, y: seq<bool>, n: nat)
    requires n < |s| == |y|
    ensures |Above(s, y, n + 1)| == |Above(s, y, n)| + if y[n] then |Lower(s, y, s[n], |s|)| else 0
    ensures |Level(s, y, n + 1)| == |Level(s, y, n)| + if y[n] then |Same(s, y, s[n], |s|)| else 0
  {
    var above, level := Above(s, y, n), Level(s, y, n);
    var low, same := Lower(s, y, s[n], |s|), Same(s, y, s[n], |s|);
    if y[n] {
      assert Above(s, y, n + 1) == above + With(n, low);
      assert Level(s, y, n + 1) == level + With(n, same);
      WithSize(n, low);
      WithSize(n, same);
    } else {
      assert Above(s, y, n + 1) == above && Level(s, y, n + 1) == level;
    }
  }

  lemma MorePairs(ps: seq<real>, x: real, ns: seq<real>)
    ensures Pairs(ps + [x], ns) == Pairs(ps, ns) + Wins(x, ns)
  {
    assert (ps + [x])[..|ps|] == ps;
  }

  lemma {:induction false} PairsCounted(s: seq<real>, y: seq<bool>, n: nat)
    requires n <= |s| == |y|
    ensures Pairs(Class(s[..n], y[..n], true), Class(s, y, false)) ==
            |Above(s, y, n)| as real + |Level(s, y, n)| as real / 2.0
  {
    if n > 0 {
      hide Class, Wins, Pairs, Above, Level, Lower, Same;
      var ps, ns := Class(s[..n - 1], y[..n - 1], true), Class(s, y, false);
      PairsCounted(s, y, n - 1);
      ClassStep(s, y, true, n - 1);
      RowsGrow(s, y, n - 1);
      WinsCounted(s, y, s[n - 1], |s|);
      assert s[..|s|] == s && y[..|y|] == y;
      MorePairs(ps, s[n - 1], ns);
      assert ps + [] == ps;
    } else {
      assert Above(s, y, 0) == {} && Level(s, y, 0) == {};
    }
  }

  lemma Portion(x: real, n: nat, m: nat)
    requires n > 0 && m > 0
    ensures n as real * m as real > 0.0 && Share(x, n, m) * (n as real * m as real) == x
    ensures 0.0 <= x <= n as real * m as real ==> 0.0 <= Share(x, n, m) <= 1.0
  {
    var d := n as real * m as real;
    assert d > 0.0;
    Quotient(x, d);
  }

  lemma Quotient(x: real, d: real)
    requires d > 0.0
    ensures x / d * d == x
    ensures 0.0 <= x <= d ==> 0.0 <= x / d <= 1.0
  {
  }

  /** For every list of scores the rank-sum form is the pairwise one: the pairs of positions with a
      positive above a negative, plus half the tied ones, out of all pairs of a positive and a negative
      position. It lies between 0 and 1, and there is none exactly when a class is absent. */
  lemma RankSumIsPairCount(s: seq<real>, y: seq<bool>)
    requires |s| == |y|
    ensures var n, m := |Indices(y, true, |y|)|, |Indices(y, false, |y|)|;
      match AreaUnderCurve(s, y)
      case None => n == 0 || m == 0
      case Some(a) =>
        && n > 0 && m > 0 && 0.0 <= a <= 1.0
        && a * (n as real * m as real) == |Above(s, y, |s|)| as real + |Level(s, y, |s|)| as real / 2.0
  {
    hide *;
    var ps, ns := Class(s, y, true), Class(s, y, false);
    assert s[..|s|] == s && y[..|y|] == y;
    ClassSize(s, y, true, |s|);
    ClassSize(s, y, false, |s|);
    PairsCounted(s, y, |s|);
    AreaIs(s, y);
    if |ps| > 0 && |ns| > 0 {
      PairsBounded(ps, ns);
      Portion(Pairs(ps, ns), |ps|, |ns|);
    }
  }

  lemma AreaIs(s: seq<real>, y: seq<bool>)
    requires |s| == |y|
    ensures var ps, ns := Class(s, y, true), Class(s, y, false);
      AreaUnderCurve(s, y) == if |ps| == 0 || |ns| == 0 then None else Some(Share(Pairs(ps, ns), |ps|, |ns|))
  {
    hide Class, Pairs, RankSum, Unique, OwnRanks, Share;
    ClassIn(s, y, true);
    UniqueIs(s);
    WithoutSelfPairs(s, y);
  }

  /** It lies between 0 and 1. */
  lemma {:induction false} PairsBounded(ps: seq<real>, ns: seq<real>)
    ensures 0.0 <= Pairs(ps, ns) <= |ps| as real * |ns| as real
  {
    if ps != [] {
      PairsBounded(ps[..|ps| - 1], ns);
      WinsBounded(ps[|ps| - 1], ns);
      assert (|ps| - 1) as real * |ns| as real + |ns| as real == |ps| as real * |ns| as real;
    }
  }

  lemma {:induction false} WinsBounded(v: real, s: seq<real>)
    ensures 0.0 <= Wins(v, s) <= |s| as real
  {
    if s != [] { WinsBounded(v, s[..|s| - 1]); }
  }
}
