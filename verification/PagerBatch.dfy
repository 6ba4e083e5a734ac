/** The calls of one batch on the whole pager, with whatever the slices compute in between: nothing
    fails, every slice is where it has to be, and the page-ins can be counted. */
module PagerBatch {
  import opened Wrappers
  import opened Network
  import opened Pager
  import opened PagerCoherence
  import opened PagerVisits
  import opened PagerSchedule

  // ── a run of the pager, and the calls in it ──────────────────────────────────

  /** The call an operation is, if it is one: what a slice computes is none. */
  function CallOf(op: Op): seq<Call> {
    match op
    case DoFetch(i, state) => [CFetch(i, state)]
    case DoHold(i, grads, _) => [CAcquire(i, grads)]
    case DoCompute(_, _, _, _) => []
    case DoRelease(i, dirty) => [CRelease(i, dirty == All)]
    case DoStepOnCpu(i, _) => [CStep(i)]
    case DoFlush | DoEndBatch => [CEnd]
  }

  function Calls(ops: seq<Op>): seq<Call> {
    if ops == [] then [] else CallOf(ops[0]) + Calls(ops[1..])
  }

  lemma {:induction false} CallsSnoc(ops: seq<Op>, op: Op)
    ensures Calls(ops + [op]) == Calls(ops) + CallOf(op)
    decreases |ops|
  {
    hide CallOf;
    if ops == [] {
      assert [] + [op] == [op] && [op][1..] == [];
      assert CallOf(op) + [] == [] + CallOf(op);
    } else {
      CallsSnoc(ops[1..], op);
      assert (ops + [op])[1..] == ops[1..] + [op];
    }
  }

  /** The page-ins of parameters a run makes: fetches of slices that are not resident. */
  ghost function PageIns(c: Config, st: PagerState, ops: seq<Op>): nat
    requires Coherent(c, st) && LegalRun(c, st, ops)
    decreases |ops|
  {
    if ops == [] then 0
    else (if Loads(st, ops[0]) then 1 else 0) + PageIns(c, Do(c, st, ops[0]).1, ops[1..])
  }

  predicate Loads(st: PagerState, op: Op) {
    op.DoFetch? && op.i < |st.pages| && st.pages[op.i].slot == None
  }

  /** An operation does its work: no error; an acquire finds its slice resident, no slot in use, and
      if it is going to step the slice's laid-out optimizer state in the slot; a slice that leaves is
      the only one in use. */
  ghost predicate Works(c: Config, st: PagerState, op: Op)
    requires Coherent(c, st) && Legal(c, st, op)
  {
    && Do(c, st, op).0 == Done
    && match op
       case DoHold(i, grads, _) => NoneBusy(st) && (grads && HasState(st.pages[i]) && !c.cpuOpt ==> st.pages[i].stateIn)
       case DoRelease(i, _) => Computing(c, st, i)
       case DoStepOnCpu(i, _) => Computing(c, st, i)
       case _ => true
  }

  ghost predicate AllWork(c: Config, st: PagerState, ops: seq<Op>)
    requires Coherent(c, st) && LegalRun(c, st, ops)
    decreases |ops|
  {
    ops == [] || (Works(c, st, ops[0]) && AllWork(c, Do(c, st, ops[0]).1, ops[1..]))
  }

  // ── what the slices still to come rely on ────────────────────────────────────

  /** A call that needs slice `j`'s layout. */
  predicate Needs(call: Call, j: nat) {
    (call.CFetch? || call.CAcquire?) && call.i == j
  }

  /** No call after a slice's step needs the slice again. */
  ghost predicate Steady(calls: seq<Call>)
    decreases |calls|
  {
    calls == [] || (Steady(calls[1..]) &&
      (calls[0].CRelease? && calls[0].all ==> NoneNeeds(calls[1..], calls[0].i)))
  }

  ghost predicate NoneNeeds(calls: seq<Call>, j: nat) {
    forall k | 0 <= k < |calls| :: !Needs(calls[k], j)
  }

  /** The slices the calls need fit in a slot, and `laid` says which of them have laid-out state. */
  ghost predicate Prepared(c: Config, st: PagerState, laid: set<nat>, calls: seq<Call>)
    requires |st.pages| == |c.sizes|
  {
    forall j: nat | j < |st.pages| && !NoneNeeds(calls, j) :: PreparedAt(c, st, laid, j)
  }

  ghost predicate PreparedAt(c: Config, st: PagerState, laid: set<nat>, j: nat)
    requires j < |st.pages| == |c.sizes|
  {
    FitsAt(c, st, j) && (j in laid <==> !c.cpuOpt && HasState(st.pages[j]))
  }

  lemma StillPrepared(c: Config, st: PagerState, st': PagerState, laid: set<nat>, calls: seq<Call>, i: nat)
    requires calls != [] && |st.pages| == |c.sizes| && Prepared(c, st, laid, calls) && SameRoom(st, st', i)
    requires i >= |st.pages| || NoneNeeds(calls[1..], i)
    ensures Prepared(c, st', laid, calls[1..])
  {
    forall j: nat | j < |st'.pages| && !NoneNeeds(calls[1..], j) ensures PreparedAt(c, st', laid, j) {
      var k :| 0 <= k < |calls[1..]| && Needs(calls[1..][k], j);
      assert Needs(calls[k + 1], j);
      assert PreparedAt(c, st, laid, j);
    }
  }

  // ── one operation ────────────────────────────────────────────────────────────

  lemma SomeFree(c: Config, st: PagerState, loads: nat, i: nat)
    requires Coherent(c, st) && i < |st.pages|
    requires SlotOf(Res(st, loads).slots, i, 0).Some? || VictimOf(Res(st, loads).slots).Some?
    ensures st.pages[i].slot.Some? || exists k | 0 <= k < |st.slots| :: !st.slots[k].busy
  {
    SlotOfPage(c, st, i);
    var v := VictimOf(Uses(st.slots));
    if st.pages[i].slot == None { assert !Uses(st.slots)[v.value].busy; }
  }

  lemma FetchWorks(c: Config, st: PagerState, i: nat, state: bool, laid: set<nat>, loads: nat)
    requires Coherent(c, st) && i < |st.pages| && PreparedAt(c, st, laid, i)
    requires Safe(Res(st, loads), laid, CFetch(i, state))
    ensures var (r, st') := Fetch(c, st, i, state);
      && r == Done && SameRoom(st, st', |st.pages|)
      && Res(st', loads + if st.pages[i].slot == None then 1 else 0) == Moved(Res(st, loads), laid, CFetch(i, state))
  {
    SomeFree(c, st, loads, i);
    hide Fetched, SlotOf, VictimOf, Uses;
    FetchKeeps(c, st, i, state);
    FetchRoom(c, st, i, state);
    Smaller(c, st, i, state);
    FetchMoves(c, st, i, state, loads);
    hide Fetch, Coherent, SameRoom;
  }

  lemma AllFreeIdle(st: PagerState, loads: nat)
    requires AllFree(Res(st, loads))
    ensures NoneBusy(st)
  {
    forall k: nat | k < |st.slots| ensures IdleAt(st, k) { assert !Res(st, loads).slots[k].busy; }
  }

  lemma IdleAllFree(st: PagerState, loads: nat)
    requires NoneBusy(st)
    ensures AllFree(Res(st, loads))
  {
    forall k: nat | k < |Res(st, loads).slots| ensures !Res(st, loads).slots[k].busy { assert IdleAt(st, k); }
  }

  lemma OnlyBusyComputes(c: Config, st: PagerState, loads: nat, i: nat)
    requires Coherent(c, st) && Busy(c, st, i) && OnlyBusy(Res(st, loads), i)
    ensures Computing(c, st, i)
  {
    SlotOfPage(c, st, i);
    assert PageOk(c, st, i);
    forall k: nat | k < |st.slots| ensures BusyOnly(st, k, i) {
      assert Res(st, loads).slots[k].busy == st.slots[k].busy;
    }
  }

  lemma HoldWorks(c: Config, st: PagerState, i: nat, grads: bool, zeros: Values, laid: set<nat>, loads: nat)
    requires Coherent(c, st) && i < |st.pages| && st.pages[i].slot.Some? && PreparedAt(c, st, laid, i)
    requires Safe(Res(st, loads), laid, CAcquire(i, grads))
    ensures NoneBusy(st) && (grads && HasState(st.pages[i]) && !c.cpuOpt ==> st.pages[i].stateIn)
    ensures var st' := Hold(c, st, i, grads, zeros);
      && Coherent(c, st') && SameRoom(st, st', |st.pages|)
      && Res(st', loads) == Moved(Res(st, loads), laid, CAcquire(i, grads))
  {
    AllFreeIdle(st, loads);
    HoldIdle(c, st, i, grads, zeros);
    HoldMoves(c, st, i, grads, zeros, loads);
    hide Hold, Acquired, Coherent, SlotOf;
  }

  lemma ReleaseRoom(c: Config, st: PagerState, i: nat, dirty: Dirty)
    requires Coherent(c, st) && Busy(c, st, i) && Covers(dirty, st.touched[i])
    ensures var st' := Release(c, st, i, dirty);
      SameRoom(st, st', i) && (dirty != All ==> SameRoom(st, st', |st.pages|))
  {
    assert PageOk(c, st, i);
  }

  lemma StepRoom(c: Config, st: PagerState, i: nat)
    requires Coherent(c, st) && Busy(c, st, i)
    ensures SameRoom(st, StepOnCpu(c, st, i), |st.pages|)
  {
    assert PageOk(c, st, i);
  }

  lemma ComputeRoom(c: Config, st: PagerState, i: nat, v: View, g: Values, level: Dirty)
    requires Coherent(c, st) && Busy(c, st, i)
    ensures SameRoom(st, Computed(st, i, v, g, level), |st.pages|)
  {
    assert PageOk(c, st, i);
  }

  // ── the run ──────────────────────────────────────────────────────────────────

  /** What one operation of a prepared run leaves for the calls `rest`. */
  ghost predicate Next(c: Config, st: PagerState, op: Op, laid: set<nat>, rest: seq<Call>, r: Residency, loads: nat)
    requires Coherent(c, st) && Legal(c, st, op)
  {
    var st' := Do(c, st, op).1;
    && Works(c, st, op) && |st'.pages| == |st.pages| == |c.sizes| && Prepared(c, st', laid, rest)
    && Res(st', loads + if Loads(st, op) then 1 else 0) == r
  }

  lemma ComputeNext(c: Config, st: PagerState, op: Op, laid: set<nat>, calls: seq<Call>, loads: nat)
    requires Coherent(c, st) && Legal(c, st, op) && op.DoCompute? && Prepared(c, st, laid, calls)
    ensures Next(c, st, op, laid, calls, Res(st, loads), loads)
  {
    hide Computed, Res;
    ComputeMoves(c, st, op.i, op.v, op.g, op.level, loads);
    ComputeRoom(c, st, op.i, op.v, op.g, op.level);
    var st' := Do(c, st, op).1;
    forall j: nat | j < |st'.pages| && !NoneNeeds(calls, j) ensures PreparedAt(c, st', laid, j) {
      assert PreparedAt(c, st, laid, j);
    }
  }

  lemma FetchNextCall(c: Config, st: PagerState, op: Op, laid: set<nat>, calls: seq<Call>, loads: nat)
    requires Coherent(c, st) && Legal(c, st, op) && op.DoFetch? && calls != [] && calls[0] == CFetch(op.i, op.state)
    requires Prepared(c, st, laid, calls) && Safe(Res(st, loads), laid, calls[0])
    ensures Next(c, st, op, laid, calls[1..], Moved(Res(st, loads), laid, calls[0]), loads)
  {
    hide Fetch, Res, Moved, Safe;
    assert Needs(calls[0], op.i);
    assert PreparedAt(c, st, laid, op.i);
    FetchWorks(c, st, op.i, op.state, laid, loads);
    StillPrepared(c, st, Do(c, st, op).1, laid, calls, |st.pages|);
    hide Prepared, SameRoom;
  }

  lemma HoldNext(c: Config, st: PagerState, op: Op, laid: set<nat>, calls: seq<Call>, loads: nat)
    requires Coherent(c, st) && Legal(c, st, op) && op.DoHold? && calls != [] && calls[0] == CAcquire(op.i, op.grads)
    requires Prepared(c, st, laid, calls) && Safe(Res(st, loads), laid, calls[0])
    ensures Next(c, st, op, laid, calls[1..], Moved(Res(st, loads), laid, calls[0]), loads)
  {
    hide Hold, Res, Moved, Safe;
    assert Needs(calls[0], op.i);
    assert PreparedAt(c, st, laid, op.i);
    HoldWorks(c, st, op.i, op.grads, op.zeros, laid, loads);
    StillPrepared(c, st, Do(c, st, op).1, laid, calls, |st.pages|);
    hide Prepared, NoneBusy;
  }

  lemma ReleaseNextCall(c: Config, st: PagerState, op: Op, laid: set<nat>, calls: seq<Call>, loads: nat)
    requires Coherent(c, st) && Legal(c, st, op) && op.DoRelease? && calls != []
    requires calls[0] == CRelease(op.i, op.dirty == All)
    requires Prepared(c, st, laid, calls) && Safe(Res(st, loads), laid, calls[0]) && Steady(calls)
    ensures Next(c, st, op, laid, calls[1..], Moved(Res(st, loads), laid, calls[0]), loads)
  {
    OnlyBusyComputes(c, st, loads, op.i);
    hide Release, Res;
    ReleaseMoves(c, st, op.i, op.dirty, loads);
    ReleaseRoom(c, st, op.i, op.dirty);
    StillPrepared(c, st, Do(c, st, op).1, laid, calls, if op.dirty == All then op.i else |st.pages|);
    hide Prepared, Computing, Released;
  }

  lemma StepNext(c: Config, st: PagerState, op: Op, laid: set<nat>, calls: seq<Call>, loads: nat)
    requires Coherent(c, st) && Legal(c, st, op) && op.DoStepOnCpu? && calls != [] && calls[0] == CStep(op.i)
    requires Prepared(c, st, laid, calls) && Safe(Res(st, loads), laid, calls[0])
    ensures Next(c, st, op, laid, calls[1..], Moved(Res(st, loads), laid, calls[0]), loads)
  {
    OnlyBusyComputes(c, st, loads, op.i);
    hide StepOnCpu, Res;
    StepMoves(c, st, op.i, loads);
    StepRoom(c, st, op.i);
    StillPrepared(c, st, Do(c, st, op).1, laid, calls, |st.pages|);
    hide Prepared, Computing, SteppedOut;
  }

  lemma OneNext(c: Config, st: PagerState, op: Op, laid: set<nat>, calls: seq<Call>, loads: nat)
    requires Coherent(c, st) && Legal(c, st, op) && CallOf(op) != [] && calls != [] && calls[0] == CallOf(op)[0]
    requires calls[0] != CEnd
    requires Prepared(c, st, laid, calls) && Safe(Res(st, loads), laid, calls[0]) && Steady(calls)
    ensures Next(c, st, op, laid, calls[1..], Moved(Res(st, loads), laid, calls[0]), loads)
  {
    hide Next, Prepared, Safe, Steady, Legal, Coherent, Res, Moved;
    match op
    case DoFetch(_, _) => FetchNextCall(c, st, op, laid, calls, loads);
    case DoHold(_, _, _) => HoldNext(c, st, op, laid, calls, loads);
    case DoRelease(_, _) => ReleaseNextCall(c, st, op, laid, calls, loads);
    case DoStepOnCpu(_, _) => StepNext(c, st, op, laid, calls, loads);
    case _ =>
  }

  predicate NoEnd(calls: seq<Call>) {
    forall k | 0 <= k < |calls| :: calls[k] != CEnd
  }

  lemma RunFrom(c: Config, st: PagerState, ops: seq<Op>)
    requires Coherent(c, st) && LegalRun(c, st, ops) && ops != []
    ensures Legal(c, st, ops[0])
    ensures var st' := Do(c, st, ops[0]).1;
      && Coherent(c, st') && LegalRun(c, st', ops[1..])
      && (Works(c, st, ops[0]) && AllWork(c, st', ops[1..]) ==> AllWork(c, st, ops))
      && AfterRun(c, st, ops) == AfterRun(c, st', ops[1..])
      && PageIns(c, st, ops) == (if Loads(st, ops[0]) then 1 else 0) + PageIns(c, st', ops[1..])
      && Calls(ops) == CallOf(ops[0]) + Calls(ops[1..])
  {
    hide Coherent, Legal, Works, Do, Loads, CallOf;
  }

  lemma CallsFrom(r: Residency, laid: set<nat>, calls: seq<Call>)
    requires calls != [] && SafeCalls(r, laid, calls) && Steady(calls) && NoEnd(calls)
    ensures Safe(r, laid, calls[0]) && calls[0] != CEnd
    ensures SafeCalls(Moved(r, laid, calls[0]), laid, calls[1..]) && Steady(calls[1..]) && NoEnd(calls[1..])
    ensures AfterCalls(r, laid, calls) == AfterCalls(Moved(r, laid, calls[0]), laid, calls[1..])
  {
    hide Safe, Moved, NoneNeeds;
  }

  lemma NothingRun(c: Config, st: PagerState, r: Residency, laid: set<nat>)
    requires Coherent(c, st)
    ensures AllWork(c, st, []) && AfterRun(c, st, []) == st && PageIns(c, st, []) == 0 && AfterCalls(r, laid, []) == r
    ensures Calls([]) == []
  {
  }

  lemma NextIs(c: Config, st: PagerState, op: Op, laid: set<nat>, rest: seq<Call>, r: Residency, loads: nat)
    requires Coherent(c, st) && Legal(c, st, op) && Next(c, st, op, laid, rest, r, loads)
    ensures var st' := Do(c, st, op).1;
      && Works(c, st, op) && |st'.pages| == |st.pages| == |c.sizes| && Prepared(c, st', laid, rest)
      && Res(st', loads + if Loads(st, op) then 1 else 0) == r
  {
  }

  /** Any legal run whose calls are `calls`, from a prepared state. */
  lemma {:induction false} RunWorks(c: Config, st: PagerState, ops: seq<Op>, laid: set<nat>, calls: seq<Call>,
                                    loads: nat)
    requires Coherent(c, st) && |st.pages| == |c.sizes| && LegalRun(c, st, ops) && Calls(ops) == calls && NoEnd(calls)
    requires Prepared(c, st, laid, calls) && SafeCalls(Res(st, loads), laid, calls) && Steady(calls)
    ensures AllWork(c, st, ops)
    ensures Res(AfterRun(c, st, ops), loads + PageIns(c, st, ops)) == AfterCalls(Res(st, loads), laid, calls)
    ensures |AfterRun(c, st, ops).pages| == |st.pages|
    decreases |ops|
  {
    hide *;
    if ops == [] {
      NothingRun(c, st, Res(st, loads), laid);
    } else {
      var op, more := ops[0], ops[1..];
      RunFrom(c, st, ops);
      var st' := Do(c, st, op).1;
      if CallOf(op) == [] {
        assert [] + Calls(more) == Calls(more);
        NoCall(op);
        ComputeNext(c, st, op, laid, calls, loads);
        NextIs(c, st, op, laid, calls, Res(st, loads), loads);
        NoLoad(st, op);
        RunWorks(c, st', more, laid, calls, loads);
      } else {
        OneCallOf(op, Calls(more));
        CallsFrom(Res(st, loads), laid, calls);
        OneNext(c, st, op, laid, calls, loads);
        NextIs(c, st, op, laid, calls[1..], Moved(Res(st, loads), laid, calls[0]), loads);
        RunWorks(c, st', more, laid, calls[1..], loads + if Loads(st, op) then 1 else 0);
      }
    }
  }

  lemma NoCall(op: Op)
    requires CallOf(op) == []
    ensures op.DoCompute?
  {
  }

  lemma NoLoad(st: PagerState, op: Op)
    requires op.DoCompute?
    ensures !Loads(st, op)
  {
  }

  lemma OneCallOf(op: Op, more: seq<Call>)
    requires CallOf(op) != []
    ensures (CallOf(op) + more)[0] == CallOf(op)[0] && (CallOf(op) + more)[1..] == more
  {
  }

  // ── one batch ────────────────────────────────────────────────────────────────

  lemma {:induction false} SteadyForward(i: nat, last: nat, rest: seq<Call>)
    requires i <= last && Steady(rest) && NoEnd(rest)
    ensures Steady(ForwardCalls(i, last) + rest) && NoEnd(ForwardCalls(i, last) + rest)
    decreases last - i
  {
    if i == last {
      assert ForwardCalls(i, last) + rest == rest;
    } else {
      var more := ForwardCalls(i + 1, last) + rest;
      SteadyForward(i + 1, last, rest);
      ThreeMore(CAcquire(i, false), CFetch(i + 1, i + 1 == last), CRelease(i, false), more);
      assert ForwardCalls(i, last) + rest ==
        [CAcquire(i, false), CFetch(i + 1, i + 1 == last), CRelease(i, false)] + more;
    }
  }

  lemma ThreeMore(a: Call, b: Call, d: Call, more: seq<Call>)
    requires Steady(more) && NoEnd(more) && a.CAcquire? && b.CFetch? && d != CEnd
    requires d.CRelease? && d.all ==> NoneNeeds(more, d.i)
    ensures Steady([a, b, d] + more) && NoEnd([a, b, d] + more)
  {
    assert ([a, b, d] + more)[1..] == [b, d] + more;
    assert ([b, d] + more)[1..] == [d] + more;
    assert ([d] + more)[1..] == more;
    assert Steady([d] + more);
    assert Steady([b, d] + more);
  }

  /** No backward call needs a slice above the one it has come down to. */
  lemma {:induction false} BackwardBelow(how: Stepping, i: nat, j: nat)
    requires j > i
    ensures NoneNeeds(BackwardCalls(how, i), j)
  {
    if i > 0 {
      BackwardBelow(how, i - 1, j);
      var more := BackwardCalls(how, i - 1);
      var calls := BackwardCalls(how, i);
      assert forall k | 3 <= k < |calls| :: calls[k] == more[k - 3];
    }
  }

  lemma {:induction false} SteadyBackward(how: Stepping, i: nat)
    ensures Steady(BackwardCalls(how, i)) && NoEnd(BackwardCalls(how, i))
  {
    if i == 0 {
      assert [CAcquire(0, true), StepCall(how, 0)][1..] == [StepCall(how, 0)];
      assert [StepCall(how, 0)][1..] == [];
      assert Steady([]);
      assert Steady([StepCall(how, 0)]);
    } else {
      SteadyBackward(how, i - 1);
      BackwardBelow(how, i - 1, i);
      ThreeMore(CAcquire(i, true), CFetch(i - 1, true), StepCall(how, i), BackwardCalls(how, i - 1));
    }
  }

  lemma SteadyBatch(how: Stepping, n: nat)
    requires n > 0
    ensures Steady(BatchCalls(how, n)) && NoEnd(BatchCalls(how, n))
  {
    SteadyBackward(how, n - 1);
    SteadyForward(0, n - 1, BackwardCalls(how, n - 1));
    hide ForwardCalls, BackwardCalls;
    var rest := ForwardCalls(0, n - 1) + BackwardCalls(how, n - 1);
    assert BatchCalls(how, n) == [CFetch(0, n == 1)] + rest;
    assert BatchCalls(how, n)[1..] == rest;
  }

  /** The slices whose optimizer state has a layout, when it is paged at all. */
  function Laid(c: Config, st: PagerState): set<nat> {
    set i: nat | i < |st.pages| && !c.cpuOpt && HasState(st.pages[i])
  }

  /** One batch on the pager: from any state in which no slice computes and every slice fits, with any
      contents of the slots, any computation in between, and the step on the device or the CPU, every
      operation does its work, and the slots are as the calls alone say. */
  lemma BatchWorks(c: Config, st: PagerState, n: nat, how: Stepping, ops: seq<Op>)
    requires Coherent(c, st) && NoneBusy(st) && 0 < n == |st.pages| == |c.sizes| && Rooms(c, st, n)
    requires LegalRun(c, st, ops) && Calls(ops) == BatchCalls(how, n)
    ensures AllWork(c, st, ops) && NoneBusy(AfterRun(c, st, ops))
    ensures Res(AfterRun(c, st, ops), PageIns(c, st, ops)) == AfterCalls(Res(st, 0), Laid(c, st), BatchCalls(how, n))
  {
    hide *;
    var laid := Laid(c, st);
    SteadyBatch(how, n);
    BatchSafe(c, st, how, n);
    AllPrepared(c, st, n, BatchCalls(how, n));
    RunWorks(c, st, ops, laid, BatchCalls(how, n), 0);
    AllFreeIdle(AfterRun(c, st, ops), 0 + PageIns(c, st, ops));
  }

  lemma BatchSafe(c: Config, st: PagerState, how: Stepping, n: nat)
    requires Coherent(c, st) && NoneBusy(st) && 0 < n
    ensures SafeCalls(Res(st, 0), Laid(c, st), BatchCalls(how, n))
    ensures AllFree(AfterCalls(Res(st, 0), Laid(c, st), BatchCalls(how, n)))
  {
    CoherentSingle(c, st, 0);
    IdleAllFree(st, 0);
    assert 2 <= |Res(st, 0).slots|;
    hide BatchCalls, Single, SafeCalls, AfterCalls, Coherent, AllFree, NoneBusy, Laid;
    BatchIsSafe(Res(st, 0), Laid(c, st), how, n);
  }

  lemma AllPrepared(c: Config, st: PagerState, n: nat, calls: seq<Call>)
    requires n == |st.pages| == |c.sizes| && Rooms(c, st, n)
    ensures Prepared(c, st, Laid(c, st), calls)
  {
    hide NoneNeeds;
    forall j: nat | j < |st.pages| ensures PreparedAt(c, st, Laid(c, st), j) { assert FitsAt(c, st, j); }
  }

  /** The two slots hold slices `a` and `b`. */
  predicate SlotsHold(st: PagerState, a: nat, b: nat) {
    && |st.slots| == 2 && a != b
    && ((st.slots[0].page == Some(a) && st.slots[1].page == Some(b)) ||
        (st.slots[0].page == Some(b) && st.slots[1].page == Some(a)))
  }

  predicate SlotsEmpty(st: PagerState) {
    |st.slots| == 2 && st.slots[0].page == None && st.slots[1].page == None
  }

  /** With two slots that hold slices 0 and 1 and the step on the device, a batch of `n >= 2` slices
      pages parameters in exactly `2(n - 2)` times, and ends with slices 0 and 1 there again. */
  lemma TwoSlotPageIns(c: Config, st: PagerState, n: nat, optimizers: set<nat>, ops: seq<Op>)
    requires Coherent(c, st) && NoneBusy(st) && 2 <= n == |st.pages| == |c.sizes| && Rooms(c, st, n)
    requires SlotsHold(st, 0, 1)
    requires LegalRun(c, st, ops) && Calls(ops) == BatchCalls(OnDevice(optimizers), n)
    ensures PageIns(c, st, ops) == 2 * (n - 2) && SlotsHold(AfterRun(c, st, ops), 0, 1)
  {
    BatchWorks(c, st, n, OnDevice(optimizers), ops);
    CoherentSingle(c, st, 0);
    IdleAllFree(st, 0);
    hide Coherent, LegalRun, PageIns, AfterRun, Calls, Rooms, AllWork, NoneBusy, BatchCalls, AfterCalls, AllFree,
      Single;
    assert Holding(Res(st, 0), 0, Some(1));
    TwoSlotLoads(Res(st, 0), Laid(c, st), OnDevice(optimizers), n);
    var end := AfterRun(c, st, ops);
    assert Res(end, PageIns(c, st, ops)).slots[0].page == end.slots[0].page;
  }

  /** With two empty slots and the step on the CPU, exactly `2(n - 1)` times, and the slots are empty
      again. */
  lemma TwoSlotCpuPageIns(c: Config, st: PagerState, n: nat, ops: seq<Op>)
    requires Coherent(c, st) && NoneBusy(st) && 2 <= n == |st.pages| == |c.sizes| && Rooms(c, st, n) && SlotsEmpty(st)
    requires LegalRun(c, st, ops) && Calls(ops) == BatchCalls(OnCpu, n)
    ensures PageIns(c, st, ops) == 2 * (n - 1) && SlotsEmpty(AfterRun(c, st, ops))
  {
    BatchWorks(c, st, n, OnCpu, ops);
    IdleAllFree(st, 0);
    hide Coherent, LegalRun, PageIns, AfterRun, Calls, Rooms, AllWork, NoneBusy, BatchCalls, AfterCalls, AllFree;
    var r := Res(st, 0);
    assert r.slots[0].page == None && r.slots[1].page == None;
    TwoSlotCpuLoads(r, Laid(c, st), n);
    var end := AfterRun(c, st, ops);
    TwoSlots(r, Laid(c, st), BatchCalls(OnCpu, n));
    var r' := Res(end, PageIns(c, st, ops));
    assert r'.slots[0].page == end.slots[0].page && r'.slots[1].page == end.slots[1].page;
  }

  /** Calls never change the number of slots. */
  lemma {:induction false} TwoSlots(r: Residency, laid: set<nat>, calls: seq<Call>)
    ensures |AfterCalls(r, laid, calls).slots| == |r.slots|
    decreases |calls|
  {
    if calls != [] { TwoSlots(Moved(r, laid, calls[0]), laid, calls[1..]); }
  }
}
