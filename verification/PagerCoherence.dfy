/** Every pager operation keeps the slot-page map one-to-one and every slice's value: the pager
    refines a flat map from slice to value. */
module PagerCoherence {
  import opened Wrappers
  import opened Arithmetic
  import opened Network
  import opened Pager

  /** Page `i` and slot `k` of a state, for states that differ from `st` there only. */
  ghost predicate Elsewhere(st: PagerState, st': PagerState, i: nat, k: nat) {
    && |st'.pages| == |st.pages| && |st'.slots| == |st.slots| && |st'.touched| == |st.touched|
    && (forall j: nat | j < |st.pages| && j != i :: PageSame(st, st', j))
    && (forall l: nat | l < |st.slots| && l != k :: SlotSame(st, st', l))
  }

  ghost predicate PageSame(st: PagerState, st': PagerState, j: nat)
    requires j < |st.pages| == |st'.pages| && |st.touched| == |st'.touched|
  {
    st'.pages[j] == st.pages[j] && (j < |st.touched| ==> st'.touched[j] == st.touched[j])
  }

  ghost predicate SlotSame(st: PagerState, st': PagerState, l: nat)
    requires l < |st.slots| == |st'.slots|
  {
    st'.slots[l] == st.slots[l]
  }

  /** A change of slice `i` and of slot `k`, which held `i` or nothing before and after, keeps the
      other slices' pages, slots and values. */
  lemma OnlyOne(c: Config, st: PagerState, st': PagerState, i: nat, k: nat)
    requires Coherent(c, st) && Elsewhere(st, st', i, k) && i < |st.pages| && k < |st.slots|
    requires st.slots[k].page == Some(i) || (st.slots[k].page == None && st.pages[i].slot == None)
    requires PageOk(c, st', i) && SlotOk(st', k)
    requires st'.pages[i].slot == Some(k) || (st'.pages[i].slot == None && st'.slots[k].page == None)
    requires st'.slots[k].page == None || st'.slots[k].page == Some(i)
    ensures Coherent(c, st')
    ensures forall j: nat | j < |st.pages| && j != i :: SameAt(c, st, st', j)
  {
    hide InSync, Latest;
    assert PageOk(c, st, i) && SlotOk(st, k);
    forall j: nat | j < |st.pages| ensures PageOk(c, st', j) {
      if j != i {
        assert PageOk(c, st, j) && PageSame(st, st', j);
        if st.pages[j].slot.Some? { assert SlotSame(st, st', st.pages[j].slot.value); }
      }
    }
    forall l: nat | l < |st.slots| ensures SlotOk(st', l) {
      if l != k {
        assert SlotOk(st, l) && SlotSame(st, st', l);
        if st.slots[l].page.Some? { assert PageSame(st, st', st.slots[l].page.value); }
      }
    }
    forall j: nat | j < |st.pages| && j != i ensures SameAt(c, st, st', j) {
      OtherSame(c, st, st', i, k, j);
    }
  }

  lemma OtherSame(c: Config, st: PagerState, st': PagerState, i: nat, k: nat, j: nat)
    requires Coherent(c, st) && Coherent(c, st') && Elsewhere(st, st', i, k) && i < |st.pages| && k < |st.slots|
    requires st.slots[k].page == Some(i) || st.slots[k].page == None
    requires j < |st.pages| && j != i
    ensures SameAt(c, st, st', j)
  {
    assert PageOk(c, st, j) && PageSame(st, st', j);
    if st.pages[j].slot.Some? { assert SlotSame(st, st', st.pages[j].slot.value); }
  }

  // ── eviction ─────────────────────────────────────────────────────────────────

  /** Evicting the slice in an idle slot changes no value, and leaves the slot empty. */
  lemma EvictedKeeps(c: Config, st: PagerState, k: nat)
    requires Coherent(c, st) && k < |st.slots| && !st.slots[k].busy
    ensures var st' := Evicted(c, st, k);
      && Coherent(c, st') && SameView(c, st, st') && st'.slots[k].page == None
      && (st.slots[k].page.Some? ==> Elsewhere(st, st', st.slots[k].page.value, k))
      && (st.slots[k].page == None ==> st' == st)
  {
    assert SlotOk(st, k);
    var st' := Evicted(c, st, k);
    if st.slots[k].page.Some? {
      var i := st.slots[k].page.value;
      assert PageOk(c, st, i);
      OnlyOne(c, st, st', i, k);
      assert SameAt(c, st, st', i);
    }
    forall j: nat | j < |st.pages| ensures SameAt(c, st, st', j) { }
  }

  // ── paging in ────────────────────────────────────────────────────────────────

  /** Paging a slice in to an empty slot changes no value. */
  lemma PagedInKeeps(c: Config, st: PagerState, i: nat, k: nat, s: bool)
    requires Coherent(c, st) && i < |st.pages| && k < |st.slots|
    requires st.pages[i].slot == None && st.slots[k].page == None && !st.slots[k].busy
    ensures var st' := PagedIn(c, st, i, k, true, s);
      && Coherent(c, st') && SameView(c, st, st') && Elsewhere(st, st', i, k)
      && st'.pages[i].slot == Some(k) && (s && HasState(st.pages[i]) ==> st'.pages[i].stateIn)
  {
    assert PageOk(c, st, i) && SlotOk(st, k);
    var st' := PagedIn(c, st, i, k, true, s);
    OnlyOne(c, st, st', i, k);
    forall j: nat | j < |st.pages| ensures SameAt(c, st, st', j) { }
  }

  /** Bringing the state of a resident slice changes no value. */
  lemma StateInKeeps(c: Config, st: PagerState, i: nat)
    requires Coherent(c, st) && i < |st.pages| && st.pages[i].slot.Some? && HasState(st.pages[i])
    requires !st.pages[i].stateIn
    ensures st.pages[i].slot.value < |st.slots|
    ensures var st' := PagedIn(c, st, i, st.pages[i].slot.value, false, true);
      && Coherent(c, st') && SameView(c, st, st') && Elsewhere(st, st', i, st.pages[i].slot.value)
      && st'.pages[i].slot == st.pages[i].slot && st'.pages[i].stateIn
  {
    assert PageOk(c, st, i);
    var k := st.pages[i].slot.value;
    assert SlotOk(st, k);
    var st' := PagedIn(c, st, i, k, false, true);
    OnlyOne(c, st, st', i, k);
    forall j: nat | j < |st.pages| ensures SameAt(c, st, st', j) { }
  }

  /** `fetch` changes no value; it fails just if the slice does not fit or every slot is busy, and
      then it changes nothing. On success the slice is resident, with its state if asked for, and
      no busy slot was touched. */
  lemma FetchKeeps(c: Config, st: PagerState, i: nat, state: bool)
    requires Coherent(c, st) && i < |st.pages|
    ensures var (r, st') := Fetch(c, st, i, state);
      && Coherent(c, st') && |st'.pages| == |st.pages| && |st'.slots| == |st.slots| && SameView(c, st, st')
      && (r != Done ==> st' == st)
      && (r == Done ==> st'.pages[i].slot.Some? && (WantState(c, st, i, state) ==> st'.pages[i].stateIn))
      && (forall k: nat | k < |st.slots| && st.slots[k].busy && st.slots[k].page != Some(i) :: SlotSame(st, st', k))
      && (r == Done <==>
            var need := WantState(c, st, i, state);
            if st.pages[i].slot.Some? then !need || st.pages[i].stateIn || SlotBytes(c, st, i, true) <= st.cap
            else SlotBytes(c, st, i, need) <= st.cap && exists k | 0 <= k < |st.slots| :: !st.slots[k].busy)
  {
    assert PageOk(c, st, i);
    var (r, st') := Fetch(c, st, i, state);
    var want := WantState(c, st, i, state);
    if st.pages[i].slot.Some? {
      if want && !st.pages[i].stateIn { StateInKeeps(c, st, i); }
      SameAsSelf(c, st);
    } else {
      SameAsSelf(c, st);
      var v := VictimOf(Uses(st.slots));
      if SlotBytes(c, st, i, want) <= st.cap && v.Some? {
        FetchEvicts(c, st, i, v.value, want);
      }
    }
  }

  lemma SameAsSelf(c: Config, st: PagerState)
    requires Coherent(c, st)
    ensures SameView(c, st, st)
  {
    forall j: nat | j < |st.pages| ensures SameAt(c, st, st, j) { }
  }

  lemma FetchEvicts(c: Config, st: PagerState, i: nat, k: nat, want: bool)
    requires Coherent(c, st) && i < |st.pages| && k < |st.slots| && !st.slots[k].busy && st.pages[i].slot == None
    requires want ==> HasState(st.pages[i])
    ensures var st' := PagedIn(c, Evicted(c, st, k), i, k, true, want);
      && Coherent(c, st') && |st'.pages| == |st.pages| && |st'.slots| == |st.slots| && SameView(c, st, st')
      && st'.pages[i].slot == Some(k) && (want ==> st'.pages[i].stateIn)
      && (forall l: nat | l < |st.slots| && l != k :: SlotSame(st, st', l))
  {
    hide PagedIn, Latest;
    EvictedKeeps(c, st, k);
    var mid := Evicted(c, st, k);
    assert SlotOk(st, k);
    assert mid.pages[i] == st.pages[i];
    PagedInKeeps(c, mid, i, k, want);
    var st' := PagedIn(c, mid, i, k, true, want);
    forall j: nat | j < |st.pages| ensures SameAt(c, st, st', j) {
      assert SameAt(c, st, mid, j) && SameAt(c, mid, st', j);
    }
    forall l: nat | l < |st.slots| && l != k ensures SlotSame(st, st', l) {
      if st.slots[k].page.Some? { assert SlotSame(st, mid, l); }
      assert SlotSame(mid, st', l);
    }
  }

  // ── one slice computes ───────────────────────────────────────────────────────

  /** Slice `i` is in a slot and computing. */
  ghost predicate Busy(c: Config, st: PagerState, i: nat)
    requires Coherent(c, st)
  {
    i < |st.pages| && st.pages[i].slot.Some? && (assert PageOk(c, st, i); st.slots[st.pages[i].slot.value].busy)
  }

  lemma HoldKeeps(c: Config, st: PagerState, i: nat, grads: bool, zeros: Values)
    requires Coherent(c, st) && i < |st.pages| && st.pages[i].slot.Some?
    ensures st.pages[i].slot.value < |st.slots|
    ensures var st' := Hold(c, st, i, grads, zeros);
      Coherent(c, st') && SameView(c, st, st') && Busy(c, st', i) && Elsewhere(st, st', i, st.pages[i].slot.value)
  {
    assert PageOk(c, st, i);
    var st' := Hold(c, st, i, grads, zeros);
    assert SlotOk(st, st.pages[i].slot.value);
    OnlyOne(c, st, st', i, st.pages[i].slot.value);
    forall j: nat | j < |st.pages| ensures SameAt(c, st, st', j) { }
  }

  /** What a change of `level` may have changed. */
  predicate Within(c: Config, i: nat, v: View, v': View, level: Dirty)
    requires i < |c.sizes|
  {
    && (level != All ==> v'.p == v.p && v'.s == v.s)
    && (level == Clean || !HasBuffers(c, i) ==> v'.b == v.b)
  }

  /** A slice that computes gets exactly the value it computed, and no other slice changes. */
  lemma ComputedKeeps(c: Config, st: PagerState, i: nat, v: View, g: Values, level: Dirty)
    requires Coherent(c, st) && Busy(c, st, i) && Points(st, i) && Within(c, i, Latest(c, st, i), v, level)
    ensures st.pages[i].slot.value < |st.slots|
    ensures var st' := Computed(st, i, v, g, level);
      && Coherent(c, st') && Busy(c, st', i) && |st'.pages| == |st.pages|
      && Points(st', i) && Latest(c, st', i) == v && Elsewhere(st, st', i, st.pages[i].slot.value)
      && forall j: nat | j < |st.pages| && j != i :: SameAt(c, st, st', j)
  {
    assert PageOk(c, st, i);
    var st' := Computed(st, i, v, g, level);
    assert SlotOk(st, st.pages[i].slot.value);
    OnlyOne(c, st, st', i, st.pages[i].slot.value);
  }

  /** A slice may be released if the caller says at least what it changed. */
  predicate Covers(dirty: Dirty, touched: Dirty) {
    Join(dirty, touched) == dirty
  }

  lemma ReleaseKeeps(c: Config, st: PagerState, i: nat, dirty: Dirty)
    requires Coherent(c, st) && Busy(c, st, i) && Covers(dirty, st.touched[i])
    ensures st.pages[i].slot.value < |st.slots|
    ensures var st' := Release(c, st, i, dirty);
      Coherent(c, st') && SameView(c, st, st') && !Busy(c, st', i) && Elsewhere(st, st', i, st.pages[i].slot.value)
  {
    assert PageOk(c, st, i);
    var st' := Release(c, st, i, dirty);
    assert SlotOk(st, st.pages[i].slot.value);
    OnlyOne(c, st, st', i, st.pages[i].slot.value);
    forall j: nat | j < |st.pages| ensures SameAt(c, st, st', j) { }
  }

  /** `step_on_cpu` pages the slice out; once the step is counted as done its value is the
      optimizer step of its value on the gradients it had in its slot. */
  lemma StepOnCpuKeeps(c: Config, st: PagerState, i: nat)
    requires Coherent(c, st) && c.cpuOpt && Busy(c, st, i) && st.touched[i] != All
    ensures st.pages[i].slot.value < |st.slots| && Points(st, i)
    ensures var st' := StepOnCpu(c, st, i);
      var v := Latest(c, st, i);
      && Coherent(c, st') && Points(st', i) && !Busy(c, st', i)
      && Latest(c, st', i) ==
          (var after := c.step(i, v.p, v.s, st.slots[st.pages[i].slot.value].g); View(after.0, v.b, after.1))
      && |st'.pages| == |st.pages| && forall j: nat | j < |st.pages| && j != i :: SameAt(c, st, st', j)
  {
    assert PageOk(c, st, i);
    var st' := StepOnCpu(c, st, i);
    assert SlotOk(st, st.pages[i].slot.value);
    OnlyOne(c, st, st', i, st.pages[i].slot.value);
  }

  // ── batch boundaries ─────────────────────────────────────────────────────────

  /** Every slice's optimizer state has the same layout in both states. */
  ghost predicate SameLayouts(st: PagerState, st': PagerState) {
    |st'.pages| == |st.pages| && forall j: nat | j < |st.pages| :: LayoutSame(st, st', j)
  }

  ghost predicate LayoutSame(st: PagerState, st': PagerState, j: nat)
    requires j < |st.pages| == |st'.pages|
  {
    st'.pages[j].s == st.pages[j].s
  }

  /** Nothing is in a slot below `k`. */
  ghost predicate EmptyBelow(st: PagerState, k: nat) {
    forall l: nat | l < k && l < |st.slots| :: EmptyAt(st, l)
  }

  ghost predicate EmptyAt(st: PagerState, l: nat)
    requires l < |st.slots|
  {
    st.slots[l].page == None
  }

  ghost predicate NoneBusy(st: PagerState) {
    forall l: nat | l < |st.slots| :: IdleAt(st, l)
  }

  ghost predicate IdleAt(st: PagerState, l: nat)
    requires l < |st.slots|
  {
    !st.slots[l].busy
  }

  lemma {:induction false} EmptiedKeeps(c: Config, st: PagerState, k: nat)
    requires Coherent(c, st) && k <= |st.slots| && NoneBusy(st) && EmptyBelow(st, k)
    ensures var (r, st') := EmptiedFrom(c, st, k);
      && r == Done && Coherent(c, st') && |st'.pages| == |st.pages| && |st'.slots| == |st.slots|
      && SameView(c, st, st') && NoneBusy(st') && EmptyBelow(st', |st'.slots|) && SameLayouts(st, st')
    decreases |st.slots| - k
  {
    if k == |st.slots| {
      SameAsSelf(c, st);
      forall j: nat | j < |st.pages| ensures LayoutSame(st, st, j) { }
    } else {
      assert IdleAt(st, k);
      EvictedKeeps(c, st, k);
      EvictedRest(c, st, k);
      var mid := Evicted(c, st, k);
      EmptiedKeeps(c, mid, k + 1);
      var st' := EmptiedFrom(c, mid, k + 1).1;
      forall j: nat | j < |st.pages| ensures SameAt(c, st, st', j) && LayoutSame(st, st', j) {
        assert SameAt(c, st, mid, j) && SameAt(c, mid, st', j) && LayoutSame(st, mid, j) && LayoutSame(mid, st', j);
      }
    }
  }

  lemma EvictedRest(c: Config, st: PagerState, k: nat)
    requires Coherent(c, st) && k < |st.slots| && NoneBusy(st) && EmptyBelow(st, k)
    ensures var st' := Evicted(c, st, k);
      |st'.slots| == |st.slots| && NoneBusy(st') && EmptyBelow(st', k + 1) && SameLayouts(st, st')
  {
    var st' := Evicted(c, st, k);
    assert SlotOk(st, k);
    forall j: nat | j < |st.pages| ensures LayoutSame(st, st', j) { assert PageOk(c, st, j); }
    forall l: nat | l < |st.slots| ensures IdleAt(st', l) { assert IdleAt(st, l); }
    forall l: nat | l < k + 1 && l < |st.slots| ensures EmptyAt(st', l) { if l < k { assert EmptyAt(st, l); } }
  }

  lemma DrainedHome(c: Config, st: PagerState)
    requires Coherent(c, st) && EmptyBelow(st, |st.slots|)
    ensures Coherent(c, Drained(c, st)) && SameView(c, st, Drained(c, st)) && AllHome(c, Drained(c, st))
  {
    var st' := Drained(c, st);
    forall j: nat | j < |st.pages| ensures PageOk(c, st', j) && st'.pages[j].slot == None {
      assert PageOk(c, st, j);
      forall l: nat | l < |st.slots| ensures st.pages[j].slot != Some(l) { assert EmptyAt(st, l); }
    }
    forall l: nat | l < |st.slots| ensures SlotOk(st', l) { assert SlotOk(st, l) && EmptyAt(st, l); }
    forall j: nat | j < |st.pages| ensures SameAt(c, st, st', j) && HomeAt(c, st', j) {
      assert PageOk(c, st, j) && PageOk(c, st', j);
    }
  }

  /** After `flush` every home holds its slice's latest value, and the tensors point there. It
      fails just if a slice is computing. */
  lemma FlushKeeps(c: Config, st: PagerState)
    requires Coherent(c, st)
    ensures var (r, st') := Flush(c, st);
      && (r == Done <==> NoneBusy(st))
      && (r == Done ==> Coherent(c, st') && |st'.pages| == |st.pages| && |st'.slots| == |st.slots|
                        && SameView(c, st, st') && AllHome(c, st') && NoneBusy(st') && SameLayouts(st, st'))
  {
    if NoneBusy(st) {
      EmptiedKeeps(c, st, 0);
      var mid := EmptiedFrom(c, st, 0).1;
      DrainedHome(c, mid);
      var st' := Drained(c, mid);
      forall j: nat | j < |st.pages| ensures SameAt(c, st, st', j) && LayoutSame(st, st', j) {
        assert SameAt(c, st, mid, j) && SameAt(c, mid, st', j) && LayoutSame(st, mid, j);
      }
      forall l: nat | l < |st'.slots| ensures IdleAt(st', l) { assert IdleAt(mid, l); }
    } else {
      BusyFails(c, st, 0);
    }
  }

  lemma {:induction false} BusyFails(c: Config, st: PagerState, k: nat)
    requires Coherent(c, st) && k <= |st.slots| && exists l: nat :: k <= l < |st.slots| && !IdleAt(st, l)
    ensures EmptiedFrom(c, st, k).0 != Done
    decreases |st.slots| - k
  {
    var l: nat :| k <= l < |st.slots| && !IdleAt(st, l);
    if !st.slots[k].busy {
      EvictedKeeps(c, st, k);
      var mid := Evicted(c, st, k);
      assert SlotOk(st, k);
      assert mid.slots[l] == st.slots[l];
      assert !IdleAt(mid, l);
      BusyFails(c, mid, k + 1);
    }
  }

  /** Growing the slots changes no value, and afterwards they hold what was asked for. */
  lemma EnsureCapKeeps(c: Config, st: PagerState, nbytes: nat)
    requires Coherent(c, st) && NoneBusy(st)
    ensures var (r, st') := EnsureCap(c, st, nbytes);
      && r == Done && Coherent(c, st') && |st'.pages| == |st.pages| && |st'.slots| == |st.slots|
      && SameView(c, st, st') && NoneBusy(st') && nbytes <= st'.cap && SameLayouts(st, st')
  {
    RoundsUp(if nbytes > 256 then nbytes else 256, 256);
    forall k: nat | k < |st.slots| ensures !st.slots[k].busy { assert IdleAt(st, k); }
    FlushKeeps(c, st);
    SameAsSelf(c, st);
    var need := RoundUp(if nbytes > 256 then nbytes else 256, 256);
    var mid := Flush(c, st).1;
    CapOnly(c, mid, mid.(cap := need));
    forall j: nat | j < |st.pages| ensures LayoutSame(st, st, j) { }
    if st.cap < need {
      var st' := mid.(cap := need);
      forall j: nat | j < |st.pages| ensures SameAt(c, st, st', j) && LayoutSame(st, st', j) {
        assert SameAt(c, st, mid, j) && SameAt(c, mid, st', j) && LayoutSame(st, mid, j);
      }
    }
  }

  /** The capacity of the slots is no part of what they hold. */
  lemma CapOnly(c: Config, st: PagerState, st': PagerState)
    requires Coherent(c, st) && st' == st.(cap := st'.cap)
    ensures Coherent(c, st') && SameView(c, st, st') && (NoneBusy(st) ==> NoneBusy(st'))
  {
    forall j: nat | j < |st.pages| ensures PageOk(c, st', j) { assert PageOk(c, st, j); }
    forall l: nat | l < |st.slots| ensures SlotOk(st', l) { assert SlotOk(st, l); }
    forall j: nat | j < |st.pages| ensures SameAt(c, st, st', j) { assert PageOk(c, st, j); }
    if NoneBusy(st) {
      forall l: nat | l < |st.slots| ensures IdleAt(st', l) { assert IdleAt(st, l); }
    }
  }

  /** `end_batch` changes no value, and afterwards every slice fits in a slot with its state. */
  lemma EndBatchKeeps(c: Config, st: PagerState)
    requires Coherent(c, st) && NoneBusy(st)
    ensures var (r, st') := EndBatch(c, st);
      && r == Done && Coherent(c, st') && |st'.pages| == |st.pages| && |st'.slots| == |st.slots|
      && SameView(c, st, st') && NoneBusy(st')
      && (!c.cpuOpt ==> forall i: nat | i < |st.pages| :: FitsAt(c, st', i))
  {
    SameAsSelf(c, st);
    FlushKeeps(c, st);
    if !c.cpuOpt {
      var mid := if exists i | 0 <= i < |st.pages| :: st.pages[i].s == None && st.pages[i].created && c.sizes[i].s > 0
                 then Flush(c, st).1 else st;
      EnsureCapKeeps(c, mid, Need(c, mid, |mid.pages|));
      var st' := EnsureCap(c, mid, Need(c, mid, |mid.pages|)).1;
      forall j: nat | j < |st.pages| ensures SameAt(c, st, st', j) && FitsAt(c, st', j) {
        assert SameAt(c, st, mid, j) && SameAt(c, mid, st', j);
        assert LayoutSame(mid, st', j);
        assert SlotBytes(c, st', j, true) == SlotBytes(c, mid, j, true);
      }
    }
  }

  predicate FitsAt(c: Config, st: PagerState, i: nat)
    requires i < |st.pages| == |c.sizes|
  {
    SlotBytes(c, st, i, true) <= st.cap
  }

  // ── any run of the pager refines a flat map ──────────────────────────────────

  datatype Op =
    | DoFetch(i: nat, state: bool)
    | DoHold(i: nat, grads: bool, zeros: Values)
    | DoCompute(i: nat, v: View, g: Values, level: Dirty)
    | DoRelease(i: nat, dirty: Dirty)
    | DoStepOnCpu(i: nat, g: Values)
    | DoFlush
    | DoEndBatch

  /** The calls a well-behaved caller makes: it computes only on a slice it holds, says what it
      changed, and ends a batch with no slice computing. */
  ghost predicate Legal(c: Config, st: PagerState, op: Op)
    requires Coherent(c, st)
  {
    match op
    case DoFetch(i, state) => i < |st.pages|
    case DoHold(i, _, _) => i < |st.pages| && st.pages[i].slot.Some?
    case DoCompute(i, v, _, level) =>
      Busy(c, st, i) && (CoherentPoints(c, st, i); Within(c, i, Latest(c, st, i), v, level))
    case DoRelease(i, dirty) => Busy(c, st, i) && Covers(dirty, st.touched[i])
    case DoStepOnCpu(i, g) =>
      && c.cpuOpt && Busy(c, st, i) && st.touched[i] != All
      && (assert PageOk(c, st, i); st.slots[st.pages[i].slot.value].g == g)
    case DoFlush => NoneBusy(st)
    case DoEndBatch => NoneBusy(st)
  }

  ghost function Do(c: Config, st: PagerState, op: Op): (Outcome, PagerState)
    requires Coherent(c, st) && Legal(c, st, op)
  {
    match op
    case DoFetch(i, state) => Fetch(c, st, i, state)
    case DoHold(i, grads, zeros) => (Done, Hold(c, st, i, grads, zeros))
    case DoCompute(i, v, g, level) => (Done, Computed(st, i, v, g, level))
    case DoRelease(i, dirty) => (Done, Release(c, st, i, dirty))
    case DoStepOnCpu(i, _) => (Done, StepOnCpu(c, st, i))
    case DoFlush => Flush(c, st)
    case DoEndBatch => EndBatch(c, st)
  }

  /** The same call on a flat map from slice to value: paging does nothing. */
  function FlatDo(c: Config, flat: seq<View>, op: Op): seq<View> {
    match op
    case DoCompute(i, v, _, _) => if i < |flat| then flat[i := v] else flat
    case DoStepOnCpu(i, g) =>
      if i < |flat| then
        var after := c.step(i, flat[i].p, flat[i].s, g);
        flat[i := View(after.0, flat[i].b, after.1)]
      else flat
    case _ => flat
  }

  ghost predicate Reads(c: Config, st: PagerState, flat: seq<View>)
    requires Coherent(c, st)
  {
    |flat| == |st.pages| && forall i: nat | i < |flat| :: ReadsAt(c, st, flat, i)
  }

  ghost predicate ReadsAt(c: Config, st: PagerState, flat: seq<View>, i: nat)
    requires Coherent(c, st) && i < |flat| == |st.pages|
  {
    CoherentPoints(c, st, i);
    Latest(c, st, i) == flat[i]
  }

  lemma SameReads(c: Config, st: PagerState, st': PagerState, flat: seq<View>)
    requires Coherent(c, st) && Coherent(c, st') && |st'.pages| == |st.pages| && SameView(c, st, st')
    requires Reads(c, st, flat)
    ensures Reads(c, st', flat)
  {
    forall i: nat | i < |flat| ensures ReadsAt(c, st', flat, i) {
      assert ReadsAt(c, st, flat, i) && SameAt(c, st, st', i);
    }
  }

  /** One call keeps the pager coherent, and every slice reads as in the flat map. A failed fetch
      changes nothing; the other calls of a well-behaved caller do not fail. */
  lemma DoRefines(c: Config, st: PagerState, op: Op, flat: seq<View>)
    requires Coherent(c, st) && Legal(c, st, op) && Reads(c, st, flat)
    ensures var (r, st') := Do(c, st, op);
      && Coherent(c, st') && |st'.pages| == |st.pages| && (op.DoFetch? || r == Done)
      && Reads(c, st', FlatDo(c, flat, op))
  {
    hide Fetch, Hold, Computed, Release, StepOnCpu, Flush, EndBatch, Latest;
    var (r, st') := Do(c, st, op);
    match op
    case DoFetch(i, state) => FetchKeeps(c, st, i, state); SameReads(c, st, st', flat);
    case DoHold(i, grads, zeros) => HoldKeeps(c, st, i, grads, zeros); SameReads(c, st, st', flat);
    case DoCompute(i, v, g, level) =>
      CoherentPoints(c, st, i);
      ComputedKeeps(c, st, i, v, g, level);
      OneRead(c, st, st', flat, i, v);
    case DoRelease(i, dirty) => ReleaseKeeps(c, st, i, dirty); SameReads(c, st, st', flat);
    case DoStepOnCpu(i, g) =>
      StepOnCpuKeeps(c, st, i);
      assert ReadsAt(c, st, flat, i);
      var after := c.step(i, flat[i].p, flat[i].s, g);
      OneRead(c, st, st', flat, i, View(after.0, flat[i].b, after.1));
    case DoFlush => FlushKeeps(c, st); SameReads(c, st, st', flat);
    case DoEndBatch => EndBatchKeeps(c, st); SameReads(c, st, st', flat);
  }

  lemma OneRead(c: Config, st: PagerState, st': PagerState, flat: seq<View>, i: nat, v: View)
    requires Coherent(c, st) && Coherent(c, st') && |st'.pages| == |st.pages| && Reads(c, st, flat) && i < |flat|
    requires Points(st', i) && Latest(c, st', i) == v
    requires forall j: nat | j < |st.pages| && j != i :: SameAt(c, st, st', j)
    ensures Reads(c, st', flat[i := v])
  {
    hide Latest;
    var flat' := flat[i := v];
    forall j: nat | j < |flat'| ensures ReadsAt(c, st', flat', j) {
      assert ReadsAt(c, st, flat, j);
      if j != i { assert SameAt(c, st, st', j); }
    }
  }

  ghost predicate LegalRun(c: Config, st: PagerState, ops: seq<Op>)
    requires Coherent(c, st)
    decreases |ops|
  {
    ops == [] || (Legal(c, st, ops[0]) &&
      var st' := Do(c, st, ops[0]).1; Coherent(c, st') && LegalRun(c, st', ops[1..]))
  }

  ghost function AfterRun(c: Config, st: PagerState, ops: seq<Op>): PagerState
    requires Coherent(c, st) && LegalRun(c, st, ops)
    decreases |ops|
  {
    if ops == [] then st else AfterRun(c, Do(c, st, ops[0]).1, ops[1..])
  }

  /** A run and one more call. */
  lemma {:induction false} RunMore(c: Config, st: PagerState, ops: seq<Op>, op: Op)
    requires Coherent(c, st) && LegalRun(c, st, ops)
    requires var end := AfterRun(c, st, ops); Coherent(c, end) && Legal(c, end, op) && Coherent(c, Do(c, end, op).1)
    ensures LegalRun(c, st, ops + [op]) && AfterRun(c, st, ops + [op]) == Do(c, AfterRun(c, st, ops), op).1
    decreases |ops|
  {
    hide Coherent, Legal, Do;
    if ops == [] {
      assert ops + [op] == [op] && [op][1..] == [];
    } else {
      RunMore(c, Do(c, st, ops[0]).1, ops[1..], op);
      assert (ops + [op])[1..] == ops[1..] + [op];
    }
  }

  function FlatRun(c: Config, flat: seq<View>, ops: seq<Op>): seq<View>
    decreases |ops|
  {
    if ops == [] then flat else FlatRun(c, FlatDo(c, flat, ops[0]), ops[1..])
  }

  /** The pager refines a flat map from slice to value: for every sequence of calls a well-behaved
      caller makes, each slice always reads the latest value written to it. */
  lemma {:induction false} PagerRefinesFlatMap(c: Config, st: PagerState, ops: seq<Op>, flat: seq<View>)
    requires Coherent(c, st) && LegalRun(c, st, ops) && Reads(c, st, flat)
    ensures Coherent(c, AfterRun(c, st, ops)) && Reads(c, AfterRun(c, st, ops), FlatRun(c, flat, ops))
    decreases |ops|
  {
    hide Do, FlatDo, Legal, Coherent, Reads;
    if ops != [] {
      DoRefines(c, st, ops[0], flat);
      PagerRefinesFlatMap(c, Do(c, st, ops[0]).1, ops[1..], FlatDo(c, flat, ops[0]));
    }
  }
}
