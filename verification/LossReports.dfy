/** The losses the driver logs. The last worker reports a batch's loss on a thread of its own, so the
    report may arrive at any time; the driver clears its table when it starts a batch, and when its wait
    for `batch_done` is over logs the mean of the table, or zero if the table is empty. */
module LossReports {

  /** What happens at the driver and between it and the last worker. */
  datatype Event =
    | Begin             // the next batch: the table is cleared
    | Send              // the worker starts the thread that reports the batch's loss
    | Arrive(n: nat)    // the report of the `n`-th batch arrives
    | Done              // the wait for `batch_done` is over: the table is averaged

  /** `batch`: how many batches have begun. `tables`: what the table held when each was logged. A report
      is known by its batch. */
  datatype Driver = Driver(batch: nat, waiting: bool, sent: bool, table: seq<nat>,
                           inFlight: set<nat>, tables: seq<seq<nat>>)

  const START := Driver(0, false, false, [], {}, [])

  /** The worker sends a batch's report before the backwards that end in `batch_done`. */
  predicate Enabled(d: Driver, e: Event) {
    match e
    case Begin => !d.waiting
    case Send => d.waiting && !d.sent
    case Arrive(n) => n in d.inFlight
    case Done => d.waiting && d.sent
  }

  function Apply(d: Driver, e: Event): Driver
    requires Enabled(d, e)
  {
    match e
    case Begin => d.(batch := d.batch + 1, waiting := true, sent := false, table := [])
    case Send => d.(sent := true, inFlight := d.inFlight + {d.batch})
    case Arrive(n) => d.(table := d.table + [n], inFlight := d.inFlight - {n})
    case Done => d.(waiting := false, tables := d.tables + [d.table])
  }

  ghost predicate IsRun(es: seq<Event>)
    decreases |es|, 0
  {
    es == [] || (IsRun(es[..|es| - 1]) && Enabled(EndOf(es[..|es| - 1]), es[|es| - 1]))
  }

  ghost function EndOf(es: seq<Event>): Driver
    requires IsRun(es)
    decreases |es|, 1
  {
    if es == [] then START else Apply(EndOf(es[..|es| - 1]), es[|es| - 1])
  }

  // ── what is logged ───────────────────────────────────────────────────────────

  function Sum(losses: nat -> real, table: seq<nat>): real {
    if table == [] then 0.0 else Sum(losses, table[..|table| - 1]) + losses(table[|table| - 1])
  }

  /** The loss logged, when the `n`-th batch's loss is `losses(n)`. */
  function Logged(losses: nat -> real, table: seq<nat>): real {
    if table == [] then 0.0 else Sum(losses, table) / |table| as real
  }

  /** The mean of the table's losses: as many times as there are reports it is their sum, which a further
      report adds to wherever it stands. */
  lemma {:induction false} LoggedIsMean(losses: nat -> real, table: seq<nat>, n: nat, later: seq<nat>)
    ensures var all := table + [n] + later; var rest := table + later;
      Logged(losses, all) * |all| as real == Logged(losses, rest) * |rest| as real + losses(n)
  {
    SumConcat(losses, table + [n], later);
    SumConcat(losses, table, later);
    assert (table + [n])[..|table|] == table;
    Shares(losses, table + [n] + later);
    Shares(losses, table + later);
  }

  lemma Shares(losses: nat -> real, table: seq<nat>)
    ensures Logged(losses, table) * |table| as real == Sum(losses, table)
  {
  }

  lemma {:induction false} SumConcat(losses: nat -> real, a: seq<nat>, b: seq<nat>)
    ensures Sum(losses, a + b) == Sum(losses, a) + Sum(losses, b)
    decreases |b|
  {
    if b == [] {
      assert a + b == a;
    } else {
      var n := |b| - 1;
      assert a + b == (a + b[..n]) + [b[n]];
      SumConcat(losses, a, b[..n]);
    }
  }

  // ── the schedule ─────────────────────────────────────────────────────────────

  function Begins(es: seq<Event>): nat {
    if es == [] then 0 else Begins(es[..|es| - 1]) + if es[|es| - 1].Begin? then 1 else 0
  }

  function Dones(es: seq<Event>): nat {
    if es == [] then 0 else Dones(es[..|es| - 1]) + if es[|es| - 1].Done? then 1 else 0
  }

  /** At event `j` the driver waits for the `n`-th batch: it has begun and is not done. */
  predicate During(es: seq<Event>, n: nat, j: nat) {
    j < |es| && Begins(es[..j]) == n == Dones(es[..j]) + 1
  }

  /** The batch's own report arrives while the driver waits for the batch. */
  ghost predicate OwnInTime(es: seq<Event>, n: nat) {
    exists j: nat :: During(es, n, j) && es[j] == Arrive(n)
  }

  /** No other report does. */
  ghost predicate NoOther(es: seq<Event>, n: nat) {
    forall j: nat | During(es, n, j) && es[j].Arrive? :: es[j].n == n
  }

  // ── the table is what arrived during the batch ───────────────────────────────

  lemma {:induction false} Counts(es: seq<Event>)
    requires IsRun(es)
    ensures var d := EndOf(es);
      && Begins(es) == d.batch && Dones(es) == |d.tables| && d.batch == |d.tables| + (if d.waiting then 1 else 0)
      && forall n | n in d.inFlight :: 0 < n <= d.batch
  {
    if es != [] { Counts(es[..|es| - 1]); }
  }

  /** `m` is in `table` exactly if it arrives at some event before `k` while the driver waits for the
      `n`-th batch. */
  ghost predicate Holds(es: seq<Event>, n: nat, k: nat, table: seq<nat>) {
    forall m: nat :: m in table <==> ArrivesBefore(es, n, k, m)
  }

  ghost predicate ArrivesBefore(es: seq<Event>, n: nat, k: nat, m: nat) {
    exists j: nat :: j < k && During(es, n, j) && es[j] == Arrive(m)
  }

  /** The driver's table while it waits, and the tables it has logged. */
  ghost predicate TablesAre(es: seq<Event>, k: nat, d: Driver) {
    && (d.waiting ==> Holds(es, d.batch, k, d.table))
    && forall a | 0 <= a < |d.tables| :: Holds(es, a + 1, k, d.tables[a])
  }

  lemma {:induction false} TablesHold(es: seq<Event>, k: nat)
    requires k <= |es| && IsRun(es[..k])
    ensures TablesAre(es, k, EndOf(es[..k]))
  {
    if k == 0 {
      assert es[..0] == [];
    } else {
      assert es[..k][..k - 1] == es[..k - 1];
      TablesHold(es, k - 1);
      Counts(es[..k - 1]);
      hide TablesAre;
      TablesNext(es, k - 1, EndOf(es[..k - 1]));
    }
  }

  lemma TablesNext(es: seq<Event>, k: nat, d: Driver)
    requires k < |es| && Enabled(d, es[k]) && TablesAre(es, k, d)
    requires Begins(es[..k]) == d.batch && Dones(es[..k]) == |d.tables|
    requires d.batch == |d.tables| + if d.waiting then 1 else 0
    ensures TablesAre(es, k + 1, Apply(d, es[k]))
  {
    hide Holds;
    var d' := Apply(d, es[k]);
    forall a | 0 <= a < |d.tables| ensures Holds(es, a + 1, k + 1, d.tables[a]) {
      Later(es, a + 1, k, d.tables[a]);
    }
    match es[k]
    case Begin => NothingYet(es, k + 1, d'.batch);
    case Arrive(m) => if d.waiting { OneMore(es, d.batch, k, d.table, m); }
    case _ => Later(es, d.batch, k, d.table);
  }

  /** An event outside the batch, or one that is no arrival, adds nothing. */
  lemma Later(es: seq<Event>, n: nat, k: nat, table: seq<nat>)
    requires k < |es| && Holds(es, n, k, table) && (!During(es, n, k) || !es[k].Arrive?)
    ensures Holds(es, n, k + 1, table)
  {
    forall m: nat ensures m in table <==> ArrivesBefore(es, n, k + 1, m) {
      assert m in table <==> ArrivesBefore(es, n, k, m);
    }
  }

  lemma OneMore(es: seq<Event>, n: nat, k: nat, table: seq<nat>, m: nat)
    requires k < |es| && Holds(es, n, k, table) && During(es, n, k) && es[k] == Arrive(m)
    ensures Holds(es, n, k + 1, table + [m])
  {
    forall l: nat ensures l in table + [m] <==> ArrivesBefore(es, n, k + 1, l) {
      assert l in table <==> ArrivesBefore(es, n, k, l);
    }
  }

  lemma {:induction false} BeginsGrow(es: seq<Event>, j: nat, k: nat)
    requires j <= k <= |es|
    ensures Begins(es[..j]) <= Begins(es[..k])
  {
    if j < k {
      BeginsGrow(es, j, k - 1);
      assert es[..k][..k - 1] == es[..k - 1];
    }
  }

  lemma NothingYet(es: seq<Event>, k: nat, n: nat)
    requires 0 < k <= |es| && Begins(es[..k - 1]) + 1 == n
    ensures Holds(es, n, k, [])
  {
    forall m: nat ensures !ArrivesBefore(es, n, k, m) {
      forall j: nat | j < k ensures !During(es, n, j) { BeginsGrow(es, j, k - 1); }
    }
  }

  // ── no report arrives twice ──────────────────────────────────────────────────

  ghost predicate Distinct(s: seq<nat>) {
    forall a, b | 0 <= a < b < |s| :: s[a] != s[b]
  }

  ghost predicate Once(d: Driver) {
    && Distinct(d.table) && (forall n | n in d.table :: n !in d.inFlight && n <= d.batch)
    && (d.waiting && !d.sent ==> d.batch !in d.table && d.batch !in d.inFlight)
    && (forall n | n in d.inFlight :: n <= d.batch)
    && forall k | 0 <= k < |d.tables| :: Distinct(d.tables[k])
  }

  lemma {:induction false} ArriveOnce(es: seq<Event>)
    requires IsRun(es)
    ensures Once(EndOf(es))
  {
    if es != [] { ArriveOnce(es[..|es| - 1]); }
  }

  // ── the result ───────────────────────────────────────────────────────────────

  lemma {:induction false} SumNone(losses: nat -> real, table: seq<nat>)
    requires forall n | n in table :: losses(n) == 0.0
    ensures Sum(losses, table) == 0.0
  {
    if table != [] { SumNone(losses, table[..|table| - 1]); }
  }

  lemma {:induction false} SumAtLeast(losses: nat -> real, table: seq<nat>, n: nat)
    requires (forall m :: losses(m) >= 0.0) && n in table
    ensures Sum(losses, table) >= losses(n)
    decreases |table|
  {
    var last := |table| - 1;
    if table[last] == n {
      SumNonNegative(losses, table[..last]);
    } else {
      assert n in table[..last];
      SumAtLeast(losses, table[..last], n);
    }
  }

  lemma {:induction false} SumNonNegative(losses: nat -> real, table: seq<nat>)
    requires forall m :: losses(m) >= 0.0
    ensures Sum(losses, table) >= 0.0
  {
    if table != [] { SumNonNegative(losses, table[..|table| - 1]); }
  }

  lemma SumOne(losses: nat -> real, n: nat)
    ensures Logged(losses, [n]) == losses(n)
  {
    assert [n][..0] == [];
    assert Sum(losses, [n]) == 0.0 + losses(n);
    hide Sum;
    assert |[n]| as real == 1.0;
  }

  /** A table logs its batch's loss, whatever the losses are, exactly if it holds that batch's report
      and nothing else. */
  lemma LogsOwnIff(table: seq<nat>, n: nat)
    requires Distinct(table)
    ensures (forall losses: nat -> real :: Logged(losses, table) == losses(n)) <==> table == [n]
  {
    if table == [n] {
      forall losses: nat -> real ensures Logged(losses, table) == losses(n) {
        SumOne(losses, n);
      }
    } else if n !in table {
      var own := (m: nat) => if m == n then 1.0 else 0.0;
      SumNone(own, table);
      assert Logged(own, table) != own(n);
    } else {
      var m := Other(table, n);
      var other := (l: nat) => if l == n then 0.0 else 1.0;
      SumAtLeast(other, table, m);
      Positive(Sum(other, table), |table|);
      assert Logged(other, table) != other(n);
    }
  }

  lemma Positive(sum: real, k: nat)
    requires sum > 0.0 && k > 0
    ensures sum / k as real > 0.0
  {
  }

  lemma Other(table: seq<nat>, n: nat) returns (m: nat)
    requires Distinct(table) && n in table && table != [n]
    ensures m in table && m != n
  {
    if table[0] != n { return table[0]; }
    m := table[1];
  }

  lemma JustOne(table: seq<nat>, n: nat)
    requires Distinct(table)
    ensures table == [n] <==> n in table && forall m | m in table :: m == n
  {
    if n in table && table != [n] { var m := Other(table, n); }
  }

  /** For every schedule of batches and reports: the loss logged for the `n`-th batch is its own,
      whatever the losses are, if and only if its own report arrives while the driver waits for the
      batch and no other does. */
  lemma OwnLossIff(es: seq<Event>, n: nat)
    requires IsRun(es) && 0 < n <= |EndOf(es).tables|
    ensures (forall losses: nat -> real :: Logged(losses, EndOf(es).tables[n - 1]) == losses(n)) <==>
        OwnInTime(es, n) && NoOther(es, n)
  {
    var table := EndOf(es).tables[n - 1];
    ArriveOnce(es);
    LogsOwnIff(table, n);
    JustOne(table, n);
    assert es[..|es|] == es;
    TablesHold(es, |es|);
    hide IsRun, EndOf, Distinct, Logged;
    InTimeIff(es, n, table);
  }

  lemma InTimeIff(es: seq<Event>, n: nat, table: seq<nat>)
    requires Holds(es, n, |es|, table)
    ensures (n in table && forall m | m in table :: m == n) <==> OwnInTime(es, n) && NoOther(es, n)
  {
    assert n in table <==> ArrivesBefore(es, n, |es|, n);
    if NoOther(es, n) {
      forall m | m in table ensures m == n { assert ArrivesBefore(es, n, |es|, m); }
    }
    if forall m | m in table :: m == n {
      forall j: nat | During(es, n, j) && es[j].Arrive? ensures es[j].n == n {
        assert ArrivesBefore(es, n, |es|, es[j].n);
      }
    }
  }

  /** A report that comes too late for its own batch: zero is logged, not 7. */
  lemma OwnLate(losses: nat -> real)
    requires losses(1) == 7.0
    ensures var es := [Begin, Send, Done];
      IsRun(es) && |EndOf(es).tables| == 1 && Logged(losses, EndOf(es).tables[0]) == 0.0 != losses(1)
  {
    var d := RunOfThree();
  }

  lemma RunOfThree() returns (d: Driver)
    ensures IsRun([Begin, Send, Done]) && d == EndOf([Begin, Send, Done])
    ensures d == Driver(1, false, true, [], {1}, [[]])
  {
    var es := [Begin, Send, Done];
    assert es[..2] == [Begin, Send] && es[..2][..1] == [Begin] && [Begin][..0] == [];
    assert IsRun([]) && IsRun([Begin]) && EndOf([Begin]) == Driver(1, true, false, [], {}, []);
    assert IsRun([Begin, Send]) && EndOf([Begin, Send]) == Driver(1, true, true, [], {1}, []);
    d := EndOf(es);
  }

  /** And it is then logged for the next batch, if that batch's own report is late too. */
  lemma LateReport(losses: nat -> real)
    ensures var es := [Begin, Send, Done, Begin, Arrive(1), Send, Done];
      IsRun(es) && |EndOf(es).tables| == 2 && Logged(losses, EndOf(es).tables[1]) == losses(1)
  {
    var d := RunOfThree();
    var es := [Begin, Send, Done, Begin, Arrive(1), Send, Done];
    assert es[..3] == [Begin, Send, Done];
    More(es, 3, d);
    More(es, 4, Driver(2, true, false, [], {1}, [[]]));
    More(es, 5, Driver(2, true, false, [1], {}, [[]]));
    More(es, 6, Driver(2, true, true, [1], {2}, [[]]));
    assert es[..7] == es;
    assert EndOf(es).tables == [[]] + [[1]];
    assert [1][..0] == [];
  }

  lemma More(es: seq<Event>, k: nat, d: Driver)
    requires k < |es| && IsRun(es[..k]) && EndOf(es[..k]) == d && Enabled(d, es[k])
    ensures IsRun(es[..k + 1]) && EndOf(es[..k + 1]) == Apply(d, es[k])
  {
    assert es[..k + 1][..k] == es[..k];
  }
}
