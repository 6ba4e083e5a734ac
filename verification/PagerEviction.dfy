/** What a page-in throws out: over any run of the pager's calls, an empty idle slot if there is one,
    and else the idle slot acquired longest ago. */
module PagerEviction {
  import opened Wrappers
  import opened Pager
  import opened PagerCoherence

  // ── which slots a run acquires ───────────────────────────────────────────────

  /** The slot a call acquires, if it does. */
  function Acquires(st: PagerState, op: Op): Option<nat> {
    match op
    case DoHold(i, _, _) => if i < |st.pages| then st.pages[i].slot else None
    case _ => None
  }

  /** The slot each call of a run acquires. */
  ghost function Acquired(c: Config, st: PagerState, ops: seq<Op>): (slots: seq<Option<nat>>)
    requires Coherent(c, st) && LegalRun(c, st, ops)
    ensures |slots| == |ops|
    decreases |ops|
  {
    if ops == [] then [] else [Acquires(st, ops[0])] + Acquired(c, Do(c, st, ops[0]).1, ops[1..])
  }

  /** Slot `k` is acquired after the `x`-th call. */
  ghost predicate AcquiredSince(past: seq<Option<nat>>, k: nat, x: int) {
    exists y | x < y < |past| :: y >= 0 && past[y] == Some(k)
  }

  /** The idle slot `v` may be taken before the idle slot `j`: it is empty and the first such, or neither
      is and `j` was acquired after whenever `v` was. */
  ghost predicate Before(st: PagerState, past: seq<Option<nat>>, v: nat, j: nat)
    requires v < |st.slots| && j < |st.slots|
  {
    if st.slots[v].page == None then st.slots[j].page == None ==> v < j
    else
      && st.slots[j].page.Some?
      && (forall x | 0 <= x < |past| && past[x] == Some(v) :: AcquiredSince(past, j, x))
      && (j < v ==> AcquiredSince(past, j, -1))
  }

  // ── the use counter ──────────────────────────────────────────────────────────

  /** How many slots were acquired. */
  function Count(past: seq<Option<nat>>): nat {
    if past == [] then 0 else Count(past[..|past| - 1]) + if past[|past| - 1].Some? then 1 else 0
  }

  lemma {:induction false} CountGrows(past: seq<Option<nat>>, x: nat, y: nat)
    requires x <= y <= |past|
    ensures Count(past[..x]) <= Count(past[..y])
    decreases y
  {
    if x < y {
      CountGrows(past, x, y - 1);
      assert past[..y][..y - 1] == past[..y - 1];
    }
  }

  lemma CountNext(past: seq<Option<nat>>, x: nat)
    requires x < |past| && past[x].Some?
    ensures Count(past[..x + 1]) == Count(past[..x]) + 1
  {
    assert past[..x + 1][..x] == past[..x];
  }

  /** The last time slot `k` was acquired. */
  ghost predicate LastAt(past: seq<Option<nat>>, k: nat, x: nat) {
    && x < |past| && past[x] == Some(k)
    && forall y | x < y < |past| :: past[y] != Some(k)
  }

  /** A slot's stamp is how many acquisitions there had been at its own last one; zero: none. */
  ghost predicate StampAt(st: PagerState, past: seq<Option<nat>>, k: nat)
    requires k < |st.slots|
  {
    if st.slots[k].last == 0 then Some(k) !in past
    else exists x: nat :: LastAt(past, k, x) && st.slots[k].last == Count(past[..x + 1])
  }

  ghost predicate Stamped(st: PagerState, past: seq<Option<nat>>) {
    st.clock == Count(past) && forall k: nat | k < |st.slots| :: StampAt(st, past, k)
  }

  /** Evicting, waiting and growing leave the stamps as they are. */
  ghost predicate SameStamps(st: PagerState, st': PagerState) {
    && st'.clock == st.clock && |st'.slots| == |st.slots|
    && forall k | 0 <= k < |st.slots| :: st'.slots[k].last == st.slots[k].last
  }

  lemma {:induction false} EmptiedStamps(c: Config, st: PagerState, k: nat)
    requires k <= |st.slots| && |st.pages| == |c.sizes|
    ensures var st' := EmptiedFrom(c, st, k).1; SameStamps(st, st') && |st'.pages| == |st.pages|
    decreases |st.slots| - k
  {
    if k < |st.slots| && !st.slots[k].busy {
      EvictedStamps(c, st, k);
      EmptiedStamps(c, Evicted(c, st, k), k + 1);
      hide Evicted;
    }
  }

  lemma EvictedStamps(c: Config, st: PagerState, k: nat)
    requires k < |st.slots| && |st.pages| == |c.sizes|
    ensures SameStamps(st, Evicted(c, st, k)) && |Evicted(c, st, k).pages| == |st.pages|
  {
  }

  lemma FlushStamps(c: Config, st: PagerState)
    requires |st.pages| == |c.sizes|
    ensures SameStamps(st, Flush(c, st).1) && |Flush(c, st).1.pages| == |st.pages|
  {
    EmptiedStamps(c, st, 0);
    hide EmptiedFrom;
  }

  lemma FetchStamps(c: Config, st: PagerState, i: nat, state: bool)
    requires i < |st.pages| == |c.sizes|
    ensures SameStamps(st, Fetch(c, st, i, state).1)
  {
    var v := VictimOf(Uses(st.slots));
    if v.Some? { EvictedStamps(c, st, v.value); }
    hide Evicted, VictimOf, Waited;
  }

  lemma EndBatchStamps(c: Config, st: PagerState)
    requires |st.pages| == |c.sizes|
    ensures SameStamps(st, EndBatch(c, st).1)
  {
    FlushStamps(c, st);
    FlushStamps(c, Flush(c, st).1);
    hide Flush;
  }

  lemma OpStamps(c: Config, st: PagerState, op: Op)
    requires Coherent(c, st) && Legal(c, st, op) && !op.DoHold?
    ensures SameStamps(st, Do(c, st, op).1)
  {
    match op
    case DoFetch(i, state) => FetchStamps(c, st, i, state); hide Fetch;
    case DoFlush => FlushStamps(c, st); hide Flush;
    case DoEndBatch => EndBatchStamps(c, st); hide EndBatch;
    case _ => hide Coherent, Legal, WrittenBack;
  }

  lemma StillStamped(st: PagerState, st': PagerState, past: seq<Option<nat>>)
    requires Stamped(st, past) && SameStamps(st, st')
    ensures Stamped(st', past + [None])
  {
    assert (past + [None])[..|past|] == past;
    forall k: nat | k < |st'.slots| ensures StampAt(st', past + [None], k) {
      assert StampAt(st, past, k);
      if st.slots[k].last > 0 { OlderUse(st, past, None, k); }
    }
  }

  /** A stamp tells as much when more has happened. */
  lemma OlderUse(st: PagerState, past: seq<Option<nat>>, more: Option<nat>, k: nat)
    requires k < |st.slots| && StampAt(st, past, k) && more != Some(k)
    ensures StampAt(st, past + [more], k)
  {
    if st.slots[k].last > 0 {
      var x: nat :| LastAt(past, k, x) && st.slots[k].last == Count(past[..x + 1]);
      assert (past + [more])[..x + 1] == past[..x + 1];
      assert LastAt(past + [more], k, x);
    }
  }

  lemma HoldStamped(c: Config, st: PagerState, past: seq<Option<nat>>, i: nat, grads: bool, zeros: Values)
    requires Coherent(c, st) && i < |st.pages| && st.pages[i].slot.Some? && Stamped(st, past)
    ensures Stamped(Hold(c, st, i, grads, zeros), past + [st.pages[i].slot])
  {
    assert PageOk(c, st, i);
    var st' := Hold(c, st, i, grads, zeros);
    var v := st.pages[i].slot.value;
    var now := past + [Some(v)];
    assert now[..|past|] == past && now[..|past| + 1] == now;
    forall k: nat | k < |st'.slots| ensures StampAt(st', now, k) {
      assert StampAt(st, past, k);
      if k == v {
        assert LastAt(now, k, |past|);
      } else {
        OlderUse(st, past, Some(v), k);
      }
    }
  }

  lemma {:induction false} RunStamped(c: Config, st: PagerState, ops: seq<Op>, past: seq<Option<nat>>)
    requires Coherent(c, st) && LegalRun(c, st, ops) && Stamped(st, past)
    ensures Stamped(AfterRun(c, st, ops), past + Acquired(c, st, ops))
    decreases |ops|
  {
    if ops == [] {
      assert past + [] == past;
    } else {
      var st' := Do(c, st, ops[0]).1;
      match ops[0] {
        case DoHold(i, grads, zeros) => HoldStamped(c, st, past, i, grads, zeros);
        case _ =>
          OpStamps(c, st, ops[0]);
          StillStamped(st, st', past);
      }
      hide Stamped, Coherent, Legal, Do;
      var now := past + [Acquires(st, ops[0])];
      RunStamped(c, st', ops[1..], now);
      assert past + ([Acquires(st, ops[0])] + Acquired(c, st', ops[1..])) == now + Acquired(c, st', ops[1..]);
    }
  }

  // ── what is thrown out ───────────────────────────────────────────────────────

  /** An older stamp is an earlier last use. */
  lemma OlderIsEarlier(st: PagerState, past: seq<Option<nat>>, v: nat, j: nat, x: nat)
    requires v < |st.slots| && j < |st.slots| && StampAt(st, past, v) && StampAt(st, past, j) && v != j
    requires st.slots[v].last <= st.slots[j].last && x < |past| && past[x] == Some(v)
    ensures AcquiredSince(past, j, x)
  {
    var xv: nat :| LastAt(past, v, xv) && st.slots[v].last == Count(past[..xv + 1]);
    CountNext(past, xv);
    var xj: nat :| LastAt(past, j, xj) && st.slots[j].last == Count(past[..xj + 1]);
    if xj < xv { CountGrows(past, xj + 1, xv); }
    assert past[xj] == Some(j) && x < xj;
  }

  lemma VictimIs(st: PagerState, past: seq<Option<nat>>, j: nat)
    requires Stamped(st, past) && VictimOf(Uses(st.slots)).Some? && j < |st.slots| && !st.slots[j].busy
    requires j != VictimOf(Uses(st.slots)).value
    ensures Before(st, past, VictimOf(Uses(st.slots)).value, j)
  {
    var us := Uses(st.slots);
    var v := VictimOf(us).value;
    assert us[v] == UseOf(st.slots[v]) && us[j] == UseOf(st.slots[j]);
    assert StampAt(st, past, v) && StampAt(st, past, j);
    if st.slots[v].page.Some? {
      forall x | 0 <= x < |past| && past[x] == Some(v) ensures AcquiredSince(past, j, x) {
        OlderIsEarlier(st, past, v, j, x);
      }
      if j < v {
        var x: nat :| LastAt(past, j, x);
        assert past[x] == Some(j);
      }
    }
  }

  /** After any run of calls of a pager just set up: a fetch that pages a slice in puts it in an idle
      slot, the first empty one if one is empty, and else the one acquired longest ago; it fails for want
      of a slot just if all are busy. */
  lemma EvictsLeastRecent(c: Config, st: PagerState, ops: seq<Op>, i: nat, state: bool)
    requires Coherent(c, st) && LegalRun(c, st, ops)
    requires st.clock == 0 && forall k | 0 <= k < |st.slots| :: st.slots[k].last == 0
    requires var now := AfterRun(c, st, ops); Coherent(c, now) && i < |now.pages| && now.pages[i].slot == None
    ensures var now := AfterRun(c, st, ops);
      var (r, st') := Fetch(c, now, i, state);
      && (r == Failed(EverySlotInUse) ==> forall k | 0 <= k < |now.slots| :: now.slots[k].busy)
      && (r == Done ==>
            && st'.pages[i].slot.Some? && st'.pages[i].slot.value < |now.slots|
            && var v := st'.pages[i].slot.value;
               && !now.slots[v].busy
               && forall j: nat | j < |now.slots| && !now.slots[j].busy && j != v ::
                    Before(now, Acquired(c, st, ops), v, j))
  {
    forall k: nat | k < |st.slots| ensures StampAt(st, [], k) { }
    RunStamped(c, st, ops, []);
    var past := Acquired(c, st, ops);
    assert [] + past == past;
    var now := AfterRun(c, st, ops);
    var us := Uses(now.slots);
    if VictimOf(us).Some? {
      var v := VictimOf(us).value;
      assert us[v] == UseOf(now.slots[v]);
      forall j: nat | j < |now.slots| && !now.slots[j].busy && j != v ensures Before(now, past, v, j) {
        VictimIs(now, past, j);
      }
    } else {
      forall k: nat | k < |now.slots| ensures now.slots[k].busy { assert us[k].busy; }
    }
    hide Before, Stamped, Coherent, LegalRun, AfterRun;
  }
}
