/** The offload schedule against the pager's slots: forwards upwards, backwards downwards, the next
    slice prefetched while one computes. `PagerBatch` is about the same calls on the whole pager. */
module PagerSchedule {
  import opened Wrappers
  import opened Network
  import opened Pager
  import opened PagerCoherence

  // ── what the pager's operations do to the residency ──────────────────────────

  function StateIns(st: PagerState): set<nat> {
    set i: nat | i < |st.pages| && st.pages[i].stateIn
  }

  function Res(st: PagerState, loads: nat): Residency {
    Residency(Uses(st.slots), StateIns(st), st.clock, loads)
  }

  /** A slice is in at most one slot. */
  ghost predicate Single(r: Residency) {
    forall k: nat, l: nat |
      k < |r.slots| && l < |r.slots| && r.slots[k].page.Some? && r.slots[k].page == r.slots[l].page :: k == l
  }

  lemma CoherentSingle(c: Config, st: PagerState, loads: nat)
    requires Coherent(c, st)
    ensures Single(Res(st, loads))
  {
    var r := Res(st, loads);
    forall k: nat, l: nat |
      k < |r.slots| && l < |r.slots| && r.slots[k].page.Some? && r.slots[k].page == r.slots[l].page
      ensures k == l
    {
      assert SlotOk(st, k) && SlotOk(st, l);
    }
  }

  /** A slice's page entry and the slots agree on where it is. */
  lemma SlotOfPage(c: Config, st: PagerState, i: nat)
    requires Coherent(c, st) && i < |st.pages|
    ensures SlotOf(Uses(st.slots), i, 0) == st.pages[i].slot
  {
    assert PageOk(c, st, i);
    var k := SlotOf(Uses(st.slots), i, 0);
    if k.Some? { assert SlotOk(st, k.value); }
  }

  lemma FetchMoves(c: Config, st: PagerState, i: nat, state: bool, loads: nat)
    requires Coherent(c, st) && i < |st.pages| && Fetch(c, st, i, state).0 == Done
    ensures var st' := Fetch(c, st, i, state).1;
      Res(st', loads + if st.pages[i].slot == None then 1 else 0) ==
        Fetched(Res(st, loads), i, WantState(c, st, i, state))
  {
    SlotOfPage(c, st, i);
    assert PageOk(c, st, i);
    var want := WantState(c, st, i, state);
    var st' := Fetch(c, st, i, state).1;
    if st.pages[i].slot.Some? {
      assert HasState(Waited(c, st.pages[i], i)) == HasState(st.pages[i]);
      forall j: nat ensures j in StateIns(st') <==> j in StateIns(st) || (want && j == i) { }
      assert Uses(st'.slots) == Uses(st.slots);
    } else {
      var k := VictimOf(Uses(st.slots)).value;
      assert SlotOk(st, k);
      if st.slots[k].page.Some? { assert PageOk(c, st, st.slots[k].page.value); }
      LoadMoves(c, st, i, k, want);
    }
  }

  lemma LoadMoves(c: Config, st: PagerState, i: nat, k: nat, want: bool)
    requires Coherent(c, st) && i < |st.pages| && k < |st.slots| && st.pages[i].slot == None
    requires want ==> HasState(st.pages[i])
    ensures var st' := PagedIn(c, Evicted(c, st, k), i, k, true, want);
      var was := st.slots[k].page;
      && Uses(st'.slots) == Uses(st.slots)[k := UseOf(st.slots[k]).(page := Some(i))] && st'.clock == st.clock
      && StateIns(st') == (if was.Some? then StateIns(st) - {was.value} else StateIns(st)) + (if want then {i} else {})
  {
    assert PageOk(c, st, i) && SlotOk(st, k);
    if st.slots[k].page.Some? { assert PageOk(c, st, st.slots[k].page.value); }
    var st' := PagedIn(c, Evicted(c, st, k), i, k, true, want);
    forall j: nat
      ensures j in StateIns(st') <==> (j in StateIns(st) && st.slots[k].page != Some(j)) || (want && j == i)
    {
    }
  }

  lemma HoldMoves(c: Config, st: PagerState, i: nat, grads: bool, zeros: Values, loads: nat)
    requires Coherent(c, st) && i < |st.pages| && st.pages[i].slot.Some?
    ensures Res(Hold(c, st, i, grads, zeros), loads) == Acquired(Res(st, loads), i)
  {
    SlotOfPage(c, st, i);
    assert PageOk(c, st, i);
    assert Uses(Hold(c, st, i, grads, zeros).slots) == Acquired(Res(st, loads), i).slots;
  }

  lemma ReleaseMoves(c: Config, st: PagerState, i: nat, dirty: Dirty, loads: nat)
    requires Coherent(c, st) && i < |st.pages| && st.pages[i].slot.Some?
    ensures Res(Release(c, st, i, dirty), loads) == Released(Res(st, loads), i)
  {
    SlotOfPage(c, st, i);
    assert PageOk(c, st, i);
    var st' := Release(c, st, i, dirty);
    forall j: nat ensures j in StateIns(st') <==> j in StateIns(st) { }
    assert Uses(st'.slots) == Released(Res(st, loads), i).slots;
  }

  lemma StepMoves(c: Config, st: PagerState, i: nat, loads: nat)
    requires Coherent(c, st) && i < |st.pages| && st.pages[i].slot.Some?
    ensures Res(StepOnCpu(c, st, i), loads) == SteppedOut(Res(st, loads), i)
  {
    SlotOfPage(c, st, i);
    assert PageOk(c, st, i);
    var st' := StepOnCpu(c, st, i);
    forall j: nat ensures j in StateIns(st') <==> j in StateIns(st) { }
    assert Uses(st'.slots) == SteppedOut(Res(st, loads), i).slots;
  }

  lemma ComputeMoves(c: Config, st: PagerState, i: nat, v: View, g: Values, level: Dirty, loads: nat)
    requires Coherent(c, st) && i < |st.pages| && st.pages[i].slot.Some?
    ensures Res(Computed(st, i, v, g, level), loads) == Res(st, loads)
  {
    assert PageOk(c, st, i);
    var st' := Computed(st, i, v, g, level);
    forall j: nat ensures j in StateIns(st') <==> j in StateIns(st) { }
    assert Uses(st'.slots) == Uses(st.slots);
  }

  // ── the calls of one batch ───────────────────────────────────────────────────

  /** `all`: the slice is released as changed by a step. */
  datatype Call = CFetch(i: nat, state: bool) | CAcquire(i: nat, grads: bool) | CRelease(i: nat, all: bool)
    | CStep(i: nat) | CEnd

  /** Forward slices `i .. last`: each computes while the next is fetched. */
  function ForwardCalls(i: nat, last: nat): seq<Call>
    requires i <= last
    decreases last - i
  {
    if i == last then []
    else [CAcquire(i, false), CFetch(i + 1, i + 1 == last), CRelease(i, false)] + ForwardCalls(i + 1, last)
  }

  /** Where and how a batch steps: on the CPU, or on the device those slices that have an optimizer. */
  datatype Stepping = OnCpu | OnDevice(optimizers: set<nat>)

  /** The end of a backward visit. */
  function StepCall(how: Stepping, i: nat): Call {
    match how
    case OnCpu => CStep(i)
    case OnDevice(optimizers) => CRelease(i, i in optimizers)
  }

  /** Backward and step from slice `i` down to 0. */
  function BackwardCalls(how: Stepping, i: nat): seq<Call> {
    if i == 0 then [CAcquire(0, true), StepCall(how, 0)]
    else [CAcquire(i, true), CFetch(i - 1, true), StepCall(how, i)] + BackwardCalls(how, i - 1)
  }

  function BatchCalls(how: Stepping, n: nat): seq<Call>
    requires n > 0
  {
    [CFetch(0, n == 1)] + ForwardCalls(0, n - 1) + BackwardCalls(how, n - 1)
  }

  /** `laid`: the slices whose optimizer state has a layout when the batch starts. */
  function Moved(r: Residency, laid: set<nat>, call: Call): Residency {
    match call
    case CFetch(i, state) => Fetched(r, i, state && i in laid)
    case CAcquire(i, _) => Acquired(r, i)
    case CRelease(i, _) => Released(r, i)
    case CStep(i) => SteppedOut(r, i)
    case CEnd => r
  }

  /** What must hold for a call to do its work: a fetch finds its slice resident or a slot that is
      not in use; an acquire finds its slice prefetched, with its laid-out optimizer state if it is
      going to step, and no other slot in use. */
  ghost predicate Safe(r: Residency, laid: set<nat>, call: Call) {
    match call
    case CFetch(i, _) => SlotOf(r.slots, i, 0).Some? || VictimOf(r.slots).Some?
    case CAcquire(i, grads) => SlotOf(r.slots, i, 0).Some? && AllFree(r) && (grads && i in laid ==> i in r.stateIn)
    case CRelease(i, _) => OnlyBusy(r, i)
    case CStep(i) => OnlyBusy(r, i)
    case CEnd => AllFree(r)
  }

  ghost predicate SafeCalls(r: Residency, laid: set<nat>, calls: seq<Call>)
    decreases |calls|
  {
    calls == [] || (Safe(r, laid, calls[0]) && SafeCalls(Moved(r, laid, calls[0]), laid, calls[1..]))
  }

  function AfterCalls(r: Residency, laid: set<nat>, calls: seq<Call>): Residency
    decreases |calls|
  {
    if calls == [] then r else AfterCalls(Moved(r, laid, calls[0]), laid, calls[1..])
  }

  ghost predicate AllFree(r: Residency) {
    forall k: nat | k < |r.slots| :: !r.slots[k].busy
  }

  /** Exactly one slot is in use, and it holds slice `i`. */
  ghost predicate OnlyBusy(r: Residency, i: nat) {
    SlotOf(r.slots, i, 0).Some? && forall k: nat | k < |r.slots| :: r.slots[k].busy <==>
      k == SlotOf(r.slots, i, 0).value
  }

  /** Between visits: nothing computes, and slice `i` is in a slot. */
  ghost predicate Ready(r: Residency, i: nat) {
    2 <= |r.slots| && Single(r) && AllFree(r) && SlotOf(r.slots, i, 0).Some?
  }

  lemma Where(r: Residency, i: nat, k: nat)
    requires Single(r) && k < |r.slots| && r.slots[k].page == Some(i)
    ensures SlotOf(r.slots, i, 0) == Some(k)
  {
  }

  lemma AcquireNext(r: Residency, i: nat)
    requires Ready(r, i)
    ensures var r' := Acquired(r, i);
      && |r'.slots| == |r.slots| && Single(r') && OnlyBusy(r', i) && r'.loads == r.loads && r'.stateIn == r.stateIn
      && SlotOf(r'.slots, i, 0) == SlotOf(r.slots, i, 0) && VictimOf(r'.slots).Some?
      && (forall k | 0 <= k < |r.slots| :: r'.slots[k].page == r.slots[k].page)
      && (forall k | 0 <= k < |r.slots| && k != SlotOf(r.slots, i, 0).value :: r'.slots[k] == r.slots[k])
  {
    var r' := Acquired(r, i);
    var k := SlotOf(r.slots, i, 0).value;
    Where(r', i, k);
    var other := if k == 0 then 1 else 0;
    assert !r'.slots[other].busy;
  }

  /** While slice `i` computes another one is fetched: it is resident afterwards, `i` has not
      moved, and nothing else is in use. */
  lemma FetchNext(r: Residency, i: nat, j: nat, want: bool)
    requires Single(r) && OnlyBusy(r, i) && j != i && VictimOf(r.slots).Some?
    ensures var r' := Fetched(r, j, want);
      && |r'.slots| == |r.slots| && Single(r') && OnlyBusy(r', i) && SlotOf(r'.slots, j, 0).Some?
      && SlotOf(r'.slots, i, 0) == SlotOf(r.slots, i, 0)
      && (want ==> j in r'.stateIn) && (i in r.stateIn ==> i in r'.stateIn)
      && r'.loads == r.loads + if SlotOf(r.slots, j, 0).Some? then 0 else 1
  {
    var r' := Fetched(r, j, want);
    var k := SlotOf(r.slots, i, 0).value;
    if SlotOf(r.slots, j, 0) == None {
      var v := VictimOf(r.slots).value;
      assert r.slots[v].page != Some(i);
      Where(r', i, k);
      Where(r', j, v);
    }
  }

  /** The end of a visit: released, or stepped out. */
  function Left(r: Residency, i: nat, out: bool): Residency {
    if out then SteppedOut(r, i) else Released(r, i)
  }

  lemma LeaveNext(r: Residency, i: nat, j: nat, out: bool)
    requires 2 <= |r.slots| && Single(r) && OnlyBusy(r, i) && SlotOf(r.slots, j, 0).Some? && (out ==> j != i)
    ensures Ready(Left(r, i, out), j) && |Left(r, i, out).slots| == |r.slots|
    ensures forall k | 0 <= k < |r.slots| ::
      Left(r, i, out).slots[k].page == if out && k == SlotOf(r.slots, i, 0).value then None else r.slots[k].page
  {
    var r' := Left(r, i, out);
    Where(r', j, SlotOf(r.slots, j, 0).value);
  }

  /** Slice `i` computes while slice `j` is fetched. */
  function Visit(r: Residency, i: nat, j: nat, want: bool, out: bool): Residency {
    Left(Fetched(Acquired(r, i), j, want), i, out)
  }

  lemma VisitReady(r: Residency, i: nat, j: nat, want: bool, out: bool)
    requires Ready(r, i) && j != i
    ensures var r1 := Acquired(r, i);
      VictimOf(r1.slots).Some? && OnlyBusy(Fetched(r1, j, want), i)
    ensures var r' := Visit(r, i, j, want, out); Ready(r', j) && |r'.slots| == |r.slots| && (want ==> j in r'.stateIn)
  {
    AcquireNext(r, i);
    FetchNext(Acquired(r, i), i, j, want);
    LeaveNext(Fetched(Acquired(r, i), j, want), i, j, out);
  }

  // ── the whole batch ──────────────────────────────────────────────────────────

  lemma ThreeCalls(r: Residency, laid: set<nat>, a: Call, b: Call, c: Call, rest: seq<Call>)
    requires Safe(r, laid, a) && Safe(Moved(r, laid, a), laid, b) && Safe(Moved(Moved(r, laid, a), laid, b), laid, c)
    ensures var r3 := Moved(Moved(Moved(r, laid, a), laid, b), laid, c);
      && (SafeCalls(r3, laid, rest) ==> SafeCalls(r, laid, [a, b, c] + rest))
      && AfterCalls(r, laid, [a, b, c] + rest) == AfterCalls(r3, laid, rest)
  {
    hide Safe, Moved;
    var r1 := Moved(r, laid, a);
    var r2 := Moved(r1, laid, b);
    assert ([a, b, c] + rest)[1..] == [b, c] + rest;
    assert ([b, c] + rest)[1..] == [c] + rest;
    assert ([c] + rest)[1..] == rest;
    assert AfterCalls(r, laid, [a, b, c] + rest) == AfterCalls(r1, laid, [b, c] + rest);
    assert AfterCalls(r1, laid, [b, c] + rest) == AfterCalls(r2, laid, [c] + rest);
    assert AfterCalls(r2, laid, [c] + rest) == AfterCalls(Moved(r2, laid, c), laid, rest);
    assert SafeCalls(Moved(r2, laid, c), laid, rest) ==> SafeCalls(r2, laid, [c] + rest);
    assert SafeCalls(r2, laid, [c] + rest) ==> SafeCalls(r1, laid, [b, c] + rest);
  }

  /** The forward sweep. */
  function Swept(r: Residency, laid: set<nat>, i: nat, last: nat): Residency
    requires i <= last
    decreases last - i
  {
    if i == last then r else Swept(Visit(r, i, i + 1, i + 1 == last && i + 1 in laid, false), laid, i + 1, last)
  }

  lemma {:induction false} ForwardSafe(r: Residency, laid: set<nat>, i: nat, last: nat, rest: seq<Call>)
    requires i <= last && Ready(r, i)
    requires var r' := Swept(r, laid, i, last); Ready(r', last) ==> SafeCalls(r', laid, rest)
    ensures SafeCalls(r, laid, ForwardCalls(i, last) + rest)
    ensures AfterCalls(r, laid, ForwardCalls(i, last) + rest) == AfterCalls(Swept(r, laid, i, last), laid, rest)
    ensures Ready(Swept(r, laid, i, last), last) && |Swept(r, laid, i, last).slots| == |r.slots|
    decreases last - i
  {
    hide Ready, Single, AllFree, OnlyBusy, SafeCalls, AfterCalls, SlotOf, VictimOf, Moved, Visit, Safe, Acquired,
         Fetched, Released, SteppedOut, Left;
    if i == last {
      assert ForwardCalls(i, last) + rest == rest;
    } else {
      var more := ForwardCalls(i + 1, last) + rest;
      assert ForwardCalls(i, last) + rest ==
        [CAcquire(i, false), CFetch(i + 1, i + 1 == last), CRelease(i, false)] + more;
      hide ForwardCalls;
      VisitReady(r, i, i + 1, i + 1 == last && i + 1 in laid, false);
      VisitSafe(r, laid, i, i + 1, false, i + 1 == last, CRelease(i, false));
      ForwardSafe(Visit(r, i, i + 1, i + 1 == last && i + 1 in laid, false), laid, i + 1, last, rest);
      ThreeCalls(r, laid, CAcquire(i, false), CFetch(i + 1, i + 1 == last), CRelease(i, false), more);
    }
  }

  lemma VisitSafe(r: Residency, laid: set<nat>, i: nat, j: nat, grads: bool, state: bool, leave: Call)
    requires Ready(r, i) && j != i && (grads && i in laid ==> i in r.stateIn)
    requires leave == CStep(i) || (leave.CRelease? && leave.i == i)
    ensures var (a, b) := (CAcquire(i, grads), CFetch(j, state));
      && Safe(r, laid, a) && Safe(Moved(r, laid, a), laid, b) && Safe(Moved(Moved(r, laid, a), laid, b), laid, leave)
      && Moved(Moved(Moved(r, laid, a), laid, b), laid, leave) == Visit(r, i, j, state && j in laid, leave.CStep?)
  {
    VisitReady(r, i, j, state && j in laid, false);
  }

  /** The backward sweep. */
  function SweptBack(r: Residency, laid: set<nat>, i: nat, out: bool): Residency
    decreases i
  {
    if i == 0 then Left(Acquired(r, 0), 0, out)
    else SweptBack(Visit(r, i, i - 1, i - 1 in laid, out), laid, i - 1, out)
  }

  lemma {:induction false} BackwardSafe(r: Residency, laid: set<nat>, how: Stepping, i: nat)
    requires Ready(r, i) && (i in laid ==> i in r.stateIn)
    ensures SafeCalls(r, laid, BackwardCalls(how, i))
    ensures AfterCalls(r, laid, BackwardCalls(how, i)) == SweptBack(r, laid, i, how.OnCpu?)
    ensures AllFree(SweptBack(r, laid, i, how.OnCpu?))
    decreases i
  {
    hide Ready, Single, AllFree, OnlyBusy, SafeCalls, AfterCalls, SlotOf, VictimOf, Moved, Visit, Safe;
    var out := how.OnCpu?;
    if i == 0 {
      LastVisitSafe(r, laid, how);
    } else {
      VisitReady(r, i, i - 1, i - 1 in laid, out);
      VisitSafe(r, laid, i, i - 1, true, true, StepCall(how, i));
      BackwardSafe(Visit(r, i, i - 1, i - 1 in laid, out), laid, how, i - 1);
      ThreeCalls(r, laid, CAcquire(i, true), CFetch(i - 1, true), StepCall(how, i), BackwardCalls(how, i - 1));
    }
  }

  lemma LastVisitSafe(r: Residency, laid: set<nat>, how: Stepping)
    requires Ready(r, 0) && (0 in laid ==> 0 in r.stateIn)
    ensures SafeCalls(r, laid, [CAcquire(0, true), StepCall(how, 0)])
    ensures AfterCalls(r, laid, [CAcquire(0, true), StepCall(how, 0)]) == Left(Acquired(r, 0), 0, how.OnCpu?)
    ensures AllFree(Left(Acquired(r, 0), 0, how.OnCpu?))
  {
    AcquireNext(r, 0);
    var leave := StepCall(how, 0);
    assert [CAcquire(0, true), leave][1..] == [leave];
    var r1 := Acquired(r, 0);
    assert AfterCalls(r1, laid, [leave]) == Left(r1, 0, how.OnCpu?);
    assert SafeCalls(r1, laid, [leave]);
  }

  /** The calls of a batch against any residency, for any number of slices and at least two slots: no
      fetch finds all slots in use, at most one slot is in use at a time, every acquire finds its slice
      prefetched, and every slice that steps has its laid-out optimizer state in its slot. */
  lemma BatchIsSafe(r: Residency, laid: set<nat>, how: Stepping, n: nat)
    requires n > 0 && 2 <= |r.slots| && Single(r) && AllFree(r)
    ensures SafeCalls(r, laid, BatchCalls(how, n))
    ensures AfterCalls(r, laid, BatchCalls(how, n)) ==
            SweptBack(Swept(Fetched(r, 0, n == 1 && 0 in laid), laid, 0, n - 1), laid, n - 1, how.OnCpu?)
    ensures AllFree(AfterCalls(r, laid, BatchCalls(how, n)))
  {
    var r0 := Fetched(r, 0, n == 1 && 0 in laid);
    FirstFetch(r, n == 1 && 0 in laid);
    hide Ready, Single, AllFree, OnlyBusy, SafeCalls, AfterCalls, SlotOf, VictimOf, Fetched;
    var r1 := Swept(r0, laid, 0, n - 1);
    ForwardSafe(r0, laid, 0, n - 1, []);
    SweptState(r0, laid, 0, n - 1);
    BackwardSafe(r1, laid, how, n - 1);
    ForwardSafe(r0, laid, 0, n - 1, BackwardCalls(how, n - 1));
    OneCall(r, laid, CFetch(0, n == 1), ForwardCalls(0, n - 1) + BackwardCalls(how, n - 1));
    assert BatchCalls(how, n) == [CFetch(0, n == 1)] + (ForwardCalls(0, n - 1) + BackwardCalls(how, n - 1));
  }

  lemma OneCall(r: Residency, laid: set<nat>, a: Call, rest: seq<Call>)
    ensures Safe(r, laid, a) && SafeCalls(Moved(r, laid, a), laid, rest) ==> SafeCalls(r, laid, [a] + rest)
    ensures AfterCalls(r, laid, [a] + rest) == AfterCalls(Moved(r, laid, a), laid, rest)
  {
    hide Safe, Moved;
    assert ([a] + rest)[1..] == rest;
  }

  lemma FirstFetch(r: Residency, want: bool)
    requires 2 <= |r.slots| && Single(r) && AllFree(r)
    ensures VictimOf(r.slots).Some? && Ready(Fetched(r, 0, want), 0) && (want ==> 0 in Fetched(r, 0, want).stateIn)
    ensures |Fetched(r, 0, want).slots| == |r.slots|
  {
    assert !r.slots[0].busy;
    if SlotOf(r.slots, 0, 0) == None {
      var v := VictimOf(r.slots).value;
      Where(Fetched(r, 0, want), 0, v);
    }
  }

  /** The last slice arrives with its state. */
  lemma {:induction false} SweptState(r: Residency, laid: set<nat>, i: nat, last: nat)
    requires i <= last && Ready(r, i) && (i == last && last in laid ==> last in r.stateIn)
    ensures last in laid ==> last in Swept(r, laid, i, last).stateIn
    decreases last - i
  {
    hide Ready, Fetched;
    if i < last {
      VisitReady(r, i, i + 1, i + 1 == last && i + 1 in laid, false);
      SweptState(Visit(r, i, i + 1, i + 1 == last && i + 1 in laid, false), laid, i + 1, last);
    }
  }

  // ── two slots ────────────────────────────────────────────────────────────────

  /** One of the two slots holds slice `a`, the other `b`, or nothing. */
  predicate Holding(r: Residency, a: nat, b: Option<nat>) {
    |r.slots| == 2 && b != Some(a) &&
    ((r.slots[0].page == Some(a) && r.slots[1].page == b) || (r.slots[0].page == b && r.slots[1].page == Some(a)))
  }

  predicate Empty(r: Residency) {
    forall k | 0 <= k < |r.slots| :: r.slots[k].page == None
  }

  /** With two slots, a visit of `i` with its successor there loads nothing, and with another slice
      there replaces that one. */
  lemma TwoSlotVisit(r: Residency, i: nat, other: Option<nat>, j: nat, want: bool, out: bool)
    requires Ready(r, i) && Holding(r, i, other) && j != i
    ensures Holding(Visit(r, i, j, want, out), j, if out then None else Some(i))
    ensures Visit(r, i, j, want, out).loads == r.loads + if other == Some(j) then 0 else 1
  {
    AcquireNext(r, i);
    var r1 := Acquired(r, i);
    FetchNext(r1, i, j, want);
  }

  lemma {:induction false} ForwardLoads(r: Residency, laid: set<nat>, i: nat, last: nat, other: Option<nat>)
    requires i < last && Ready(r, i) && Holding(r, i, other)
    ensures Holding(Swept(r, laid, i, last), last, Some(last - 1))
    ensures Swept(r, laid, i, last).loads == r.loads + (last - i - 1) + if other == Some(i + 1) then 0 else 1
    decreases last - i
  {
    hide Ready, Visit;
    var want := i + 1 == last && i + 1 in laid;
    VisitReady(r, i, i + 1, want, false);
    TwoSlotVisit(r, i, other, i + 1, want, false);
    assert Holding(Visit(r, i, i + 1, want, false), i + 1, Some(i));
    if i + 1 < last { ForwardLoads(Visit(r, i, i + 1, want, false), laid, i + 1, last, Some(i)); }
  }

  lemma {:induction false} BackwardLoads(r: Residency, laid: set<nat>, i: nat, other: Option<nat>, out: bool)
    requires i > 0 && Ready(r, i) && Holding(r, i, other)
    ensures if out then Empty(SweptBack(r, laid, i, out)) else Holding(SweptBack(r, laid, i, out), 0, Some(1))
    ensures SweptBack(r, laid, i, out).loads == r.loads + (i - 1) + if other == Some(i - 1) then 0 else 1
    decreases i
  {
    hide Ready, Visit;
    VisitReady(r, i, i - 1, i - 1 in laid, out);
    TwoSlotVisit(r, i, other, i - 1, i - 1 in laid, out);
    var r' := Visit(r, i, i - 1, i - 1 in laid, out);
    var left := if out then None else Some(i);
    assert Holding(r', i - 1, left);
    if i > 1 { BackwardLoads(r', laid, i - 1, left, out); } else { LastVisit(r', left, out); }
  }

  lemma LastVisit(r: Residency, other: Option<nat>, out: bool)
    requires Ready(r, 0) && Holding(r, 0, other) && (out ==> other == None)
    ensures var r' := Left(Acquired(r, 0), 0, out);
      r'.loads == r.loads && if out then Empty(r') else Holding(r', 0, other)
  {
    AcquireNext(r, 0);
  }

  /** With two slots, a step on the device, and slices 0 and 1 there at the start, a batch of
      `n >= 2` slices pages parameters in exactly `2(n - 2)` times, and ends with slices 0 and 1 there
      again. */
  lemma TwoSlotLoads(r: Residency, laid: set<nat>, how: Stepping, n: nat)
    requires n >= 2 && Single(r) && AllFree(r) && Holding(r, 0, Some(1)) && how.OnDevice?
    ensures Holding(AfterCalls(r, laid, BatchCalls(how, n)), 0, Some(1))
    ensures AfterCalls(r, laid, BatchCalls(how, n)).loads == r.loads + 2 * (n - 2)
  {
    BatchIsSafe(r, laid, how, n);
    FirstFetch(r, false);
    Where(r, 0, if r.slots[0].page == Some(0) then 0 else 1);
    assert Fetched(r, 0, false) == r;
    hide Ready, Single, AllFree, SlotOf, Fetched, AfterCalls;
    ForwardLoads(r, laid, 0, n - 1, Some(1));
    ForwardSafe(r, laid, 0, n - 1, []);
    BackwardLoads(Swept(r, laid, 0, n - 1), laid, n - 1, Some(n - 2), false);
  }

  /** With two empty slots and the step on the CPU, which pages every slice out, a batch of `n >= 2`
      slices pages parameters in exactly `2(n - 1)` times, and ends with both slots empty again. */
  lemma TwoSlotCpuLoads(r: Residency, laid: set<nat>, n: nat)
    requires n >= 2 && AllFree(r) && |r.slots| == 2 && Empty(r)
    ensures Empty(AfterCalls(r, laid, BatchCalls(OnCpu, n)))
    ensures AfterCalls(r, laid, BatchCalls(OnCpu, n)).loads == r.loads + 2 * (n - 1)
  {
    BatchIsSafe(r, laid, OnCpu, n);
    FirstFetch(r, false);
    var r0 := Fetched(r, 0, false);
    assert Holding(r0, 0, None) && r0.loads == r.loads + 1;
    hide Ready, Single, AllFree, SlotOf, Fetched, AfterCalls;
    ForwardLoads(r0, laid, 0, n - 1, None);
    ForwardSafe(r0, laid, 0, n - 1, []);
    BackwardLoads(Swept(r0, laid, 0, n - 1), laid, n - 1, Some(n - 2), true);
  }
}
