/** What a caller that lets one slice compute while it fetches the next can rely on, visit by
    visit. */
module PagerVisits {
  import opened Wrappers
  import opened Network
  import opened Pager
  import opened PagerCoherence

  /** Slice `i` computes, and no other slice does. */
  ghost predicate Computing(c: Config, st: PagerState, i: nat)
    requires Coherent(c, st)
  {
    Busy(c, st, i) && forall k: nat | k < |st.slots| :: BusyOnly(st, k, i)
  }

  ghost predicate BusyOnly(st: PagerState, k: nat, i: nat)
    requires k < |st.slots|
  {
    st.slots[k].busy ==> st.slots[k].page == Some(i)
  }

  /** The capacity and the layouts of all slices but `i` are the same. */
  ghost predicate SameRoom(st: PagerState, st': PagerState, i: nat) {
    && |st'.pages| == |st.pages| && |st'.slots| == |st.slots| && st'.cap == st.cap
    && forall j: nat | j < |st.pages| && j != i :: st'.pages[j].s == st.pages[j].s
  }

  /** The first `n` slices fit in a slot, with the optimizer state they have laid out. */
  ghost predicate Rooms(c: Config, st: PagerState, n: nat)
    requires n <= |st.pages| == |c.sizes|
  {
    forall j: nat | j < n :: FitsAt(c, st, j)
  }

  lemma RoomsKept(c: Config, st: PagerState, st': PagerState, i: nat, n: nat)
    requires n <= |st.pages| == |st'.pages| == |c.sizes| && SameRoom(st, st', i) && n <= i && Rooms(c, st, n)
    ensures Rooms(c, st', n)
  {
    forall j: nat | j < n ensures FitsAt(c, st', j) { RoomKept(c, st, st', i, j); }
  }

  /** With the step on the CPU no state is laid out: what fitted once fits. */
  lemma CpuRooms(c: Config, st: PagerState, st': PagerState)
    requires Coherent(c, st) && Coherent(c, st') && c.cpuOpt && |st'.pages| == |st.pages| && st'.cap == st.cap
    requires Rooms(c, st, |st.pages|)
    ensures Rooms(c, st', |st.pages|)
  {
    forall j: nat | j < |st.pages| ensures FitsAt(c, st', j) {
      assert PageOk(c, st, j) && PageOk(c, st', j) && FitsAt(c, st, j);
    }
  }

  lemma RoomKept(c: Config, st: PagerState, st': PagerState, i: nat, j: nat)
    requires |st.pages| == |st'.pages| == |c.sizes| && SameRoom(st, st', i) && j < |st.pages| && j != i
    requires FitsAt(c, st, j)
    ensures FitsAt(c, st', j)
  {
  }

  lemma FetchRoom(c: Config, st: PagerState, j: nat, state: bool)
    requires Coherent(c, st) && j < |st.pages|
    ensures var st' := Fetch(c, st, j, state).1;
      && SameRoom(st, st', |st.pages|) && st'.touched == st.touched
      && forall k: nat | k < |st.slots| :: st'.slots[k].busy == st.slots[k].busy
  {
    assert PageOk(c, st, j);
    var v := VictimOf(Uses(st.slots));
    if v.Some? {
      assert SlotOk(st, v.value);
      if st.slots[v.value].page.Some? { assert PageOk(c, st, st.slots[v.value].page.value); }
    }
  }

  lemma Smaller(c: Config, st: PagerState, j: nat, state: bool)
    requires Coherent(c, st) && j < |st.pages| && FitsAt(c, st, j)
    ensures SlotBytes(c, st, j, WantState(c, st, j, state)) <= st.cap
  {
  }

  /** Slice `j` can be fetched while slice `i` computes: it succeeds, and `i` notices nothing. */
  lemma FetchWhile(c: Config, st: PagerState, i: nat, j: nat, state: bool)
    requires Coherent(c, st) && Computing(c, st, i) && j < |st.pages| && j != i && FitsAt(c, st, j)
    ensures var (r, st') := Fetch(c, st, j, state);
      && r == Done && Coherent(c, st') && SameRoom(st, st', |st.pages|) && st'.touched == st.touched
      && SameView(c, st, st')
      && Computing(c, st', i) && st'.pages[j].slot.Some?
      && st'.pages[i].slot == st.pages[i].slot && Resident(st, i) && Resident(st', i)
      && SlotSame(st, st', st.pages[i].slot.value)
  {
    hide Fetch, SameView, Evicted, PagedIn;
    FetchKeeps(c, st, j, state);
    FetchRoom(c, st, j, state);
    Smaller(c, st, j, state);
    assert PageOk(c, st, i);
    var k := st.pages[i].slot.value;
    SomeIdle(c, st, i);
    var st' := Fetch(c, st, j, state).1;
    assert SlotSame(st, st', k);
    assert SlotOk(st', k);
    forall l: nat | l < |st'.slots| ensures BusyOnly(st', l, i) {
      assert BusyOnly(st, l, i);
      if st.slots[l].busy { assert SlotOk(st, l); }
    }
  }

  lemma SomeIdle(c: Config, st: PagerState, i: nat)
    requires Coherent(c, st) && Computing(c, st, i)
    ensures exists k | 0 <= k < |st.slots| :: !st.slots[k].busy
  {
    assert PageOk(c, st, i);
    var k := if st.pages[i].slot == Some(0) then 1 else 0;
    assert SlotOk(st, k) && BusyOnly(st, k, i);
    assert !st.slots[k].busy;
  }

  /** The first fetch of a batch. */
  lemma FetchIdle(c: Config, st: PagerState, j: nat, state: bool)
    requires Coherent(c, st) && NoneBusy(st) && j < |st.pages| && FitsAt(c, st, j)
    ensures var (r, st') := Fetch(c, st, j, state);
      && r == Done && Coherent(c, st') && SameRoom(st, st', |st.pages|) && SameView(c, st, st')
      && NoneBusy(st') && st'.pages[j].slot.Some?
  {
    hide Fetch, SameView, Evicted, PagedIn;
    FetchKeeps(c, st, j, state);
    FetchRoom(c, st, j, state);
    Smaller(c, st, j, state);
    assert IdleAt(st, 0);
    assert !st.slots[0].busy;
    var st' := Fetch(c, st, j, state).1;
    forall k: nat | k < |st'.slots| ensures IdleAt(st', k) { assert IdleAt(st, k); }
  }

  lemma HoldIdle(c: Config, st: PagerState, i: nat, grads: bool, zeros: Values)
    requires Coherent(c, st) && NoneBusy(st) && i < |st.pages| && st.pages[i].slot.Some?
    ensures var st' := Hold(c, st, i, grads, zeros);
      && Coherent(c, st') && SameRoom(st, st', |st.pages|) && SameView(c, st, st') && Computing(c, st', i)
      && st'.touched == st.touched && st'.touched[i] == Clean
      && Resident(st', i) && (grads ==> st'.slots[st'.pages[i].slot.value].g == zeros)
  {
    HoldKeeps(c, st, i, grads, zeros);
    assert PageOk(c, st, i);
    var st' := Hold(c, st, i, grads, zeros);
    assert IdleAt(st, st.pages[i].slot.value);
    forall k: nat | k < |st'.slots| ensures BusyOnly(st', k, i) { assert IdleAt(st, k) && SlotOk(st, k); }
  }

  lemma ComputedWhile(c: Config, st: PagerState, i: nat, v: View, g: Values, level: Dirty)
    requires Coherent(c, st) && Computing(c, st, i) && Points(st, i) && Within(c, i, Latest(c, st, i), v, level)
    ensures var st' := Computed(st, i, v, g, level);
      && Coherent(c, st') && SameRoom(st, st', |st.pages|) && Computing(c, st', i) && Points(st', i)
      && Latest(c, st', i) == v
      && st'.touched[i] == Join(st.touched[i], level) && Resident(st', i) && st'.slots[st'.pages[i].slot.value].g == g
      && forall j: nat | j < |st.pages| && j != i :: SameAt(c, st, st', j)
  {
    ComputedKeeps(c, st, i, v, g, level);
    assert PageOk(c, st, i);
    var st' := Computed(st, i, v, g, level);
    forall k: nat | k < |st'.slots| ensures BusyOnly(st', k, i) { assert BusyOnly(st, k, i); }
  }

  lemma ReleasedIdle(c: Config, st: PagerState, i: nat, dirty: Dirty)
    requires Coherent(c, st) && Computing(c, st, i) && Covers(dirty, st.touched[i])
    ensures var st' := Release(c, st, i, dirty);
      && Coherent(c, st') && SameRoom(st, st', i) && SameView(c, st, st') && NoneBusy(st')
      && (dirty != All ==> SameRoom(st, st', |st.pages|))
      && forall j: nat | j < |st.pages| :: st'.pages[j].slot == st.pages[j].slot
  {
    ReleaseKeeps(c, st, i, dirty);
    assert PageOk(c, st, i);
    var st' := Release(c, st, i, dirty);
    forall k: nat | k < |st'.slots| ensures IdleAt(st', k) {
      assert BusyOnly(st, k, i);
      if st.slots[k].busy { assert SlotOk(st, k); }
    }
  }

  lemma SteppedIdle(c: Config, st: PagerState, i: nat)
    requires Coherent(c, st) && c.cpuOpt && Computing(c, st, i) && st.touched[i] != All
    ensures var st' := StepOnCpu(c, st, i);
      && Coherent(c, st') && SameRoom(st, st', |st.pages|) && NoneBusy(st')
      && forall j: nat | j < |st.pages| && j != i :: st'.pages[j].slot == st.pages[j].slot
  {
    StepOnCpuKeeps(c, st, i);
    assert PageOk(c, st, i);
    var st' := StepOnCpu(c, st, i);
    forall k: nat | k < |st'.slots| ensures IdleAt(st', k) {
      assert BusyOnly(st, k, i);
      if st.slots[k].busy { assert SlotOk(st, k); }
    }
  }
}
