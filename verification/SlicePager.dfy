/** The `SlicePager` object: its methods change pages and slots one field at a time, and each is
    proved to do what the operation of the same name in `Pager` does. It remembers the calls made of
    it, so that what is proved of runs of the pager can be said of the object. */
module SlicePager {
  import opened Wrappers
  import opened Arithmetic
  import opened Network
  import opened Pager
  import opened PagerCoherence

  class SlicePager {
    const c: Config
    var pages: seq<Page>
    var slots: seq<Slot>
    ghost var touched: seq<Dirty>
    var clock: nat
    var cap: nat
    ghost var origin: PagerState    // where the remembered run started
    ghost var ops: seq<Op>          // the calls since

    /** The remembered calls are a legal run from `origin` to `st`. */
    ghost predicate LoggedAs(st: PagerState)
      reads this`origin, this`ops
    {
      Coherent(c, origin) && LegalRun(c, origin, ops) && AfterRun(c, origin, ops) == st
    }

    ghost predicate Logged()
      reads this
    {
      LoggedAs(State())
    }

    /** One more call, that led from `st` to here. */
    ghost method Log(op: Op, st: PagerState)
      requires Coherent(c, st) && Legal(c, st, op) && State() == Do(c, st, op).1 && Valid()
      modifies this`ops
      ensures ops == old(ops) + [op] && (old(LoggedAs(st)) ==> Logged())
    {
      if LoggedAs(st) { RunMore(c, origin, ops, op); }
      ops := ops + [op];
    }

    /** Start remembering from here. */
    ghost method Mark()
      requires Valid()
      modifies this`origin, this`ops
      ensures origin == State() && ops == [] && Logged()
    {
      origin, ops := State(), [];
    }

    ghost function State(): PagerState
      reads this
    {
      PagerState(pages, slots, touched, clock, cap)
    }

    ghost predicate Valid()
      reads this
    {
      Coherent(c, State())
    }

    /** Every slice at home, every slot empty and as large as the largest slice. */
    constructor (c: Config, homes: seq<View>, nSlots: nat, blank: Slot)
      requires |homes| == |c.sizes| && 2 <= nSlots && blank.page == None && !blank.busy
      ensures this.c == c && Valid() && fresh(this) && |pages| == |homes| && |slots| == nSlots
      ensures Reads(c, State(), homes) && NoneBusy(State()) && forall i: nat | i < |homes| :: FitsAt(c, State(), i)
      ensures Logged()
    {
      this.c := c;
      pages := seq(|homes|, i requires 0 <= i < |homes| =>
        Page(homes[i].p, homes[i].b, map[], map[], None, false, Clean, None, AtHome, Fresh, homes[i].s, false, false));
      slots := seq(nSlots, k => blank);
      touched := seq(|homes|, i => Clean);
      clock, cap := 0, 0;
      origin, ops := PagerState([], [], [], 0, 0), [];
      new;
      forall i: nat | i < |pages| ensures PageOk(c, State(), i) { }
      forall k: nat | k < |slots| ensures SlotOk(State(), k) && IdleAt(State(), k) { }
      forall i: nat | i < |homes| ensures ReadsAt(c, State(), homes, i) { }
      ghost var st := State();
      var need := Largest();
      EnsureCapKeeps(c, st, need);
      var _ := EnsureCap(need);
      SameReads(c, st, State(), homes);
      forall i: nat | i < |homes| ensures FitsAt(c, State(), i) {
        assert LayoutSame(st, State(), i);
        assert SlotBytes(c, State(), i, true) == SlotBytes(c, st, i, true);
      }
      Mark();
    }

    /** The most bytes a slice needs in a slot now. */
    method Largest() returns (need: nat)
      requires |pages| == |c.sizes|
      ensures need == Need(c, State(), |pages|)
    {
      need := 0;
      for i := 0 to |pages|
        invariant need == Need(c, State(), i)
      {
        var b := c.sizes[i].pb + c.sizes[i].g + if pages[i].s.Some? then pages[i].s.value else 0;
        if need < b { need := b; }
      }
    }

    /** `_victim`: an empty idle slot if there is one, else the idle slot used longest ago. */
    method Victim() returns (v: Option<nat>)
      ensures v == VictimOf(Uses(slots))
    {
      var us := Uses(slots);
      for k := 0 to |slots|
        invariant FirstEmpty(us, 0) == FirstEmpty(us, k)
      {
        if !slots[k].busy && slots[k].page == None { return Some(k); }
      }
      v := None;
      for k := 0 to |slots|
        invariant v == Oldest(us, k)
      {
        if !slots[k].busy {
          if v == None || slots[v.value].last > slots[k].last { v := Some(k); }
        }
      }
    }

    /** `home_ready.result()`. */
    method Wait(i: nat)
      requires i < |pages|
      modifies this`pages
      ensures pages == old(pages)[i := Waited(c, old(pages)[i], i)]
    {
      if pages[i].pending {
        var after := c.step(i, pages[i].homeP, pages[i].own, pages[i].homeG);
        pages := pages[i := pages[i].(homeP := after.0, own := after.1)];
        pages := pages[i := pages[i].(pending := false)];
      }
    }

    /** `_adopt_state`. */
    method AdoptState(i: nat)
      requires i < |pages| == |c.sizes|
      modifies this`pages
      ensures pages == old(pages)[i := Adopted(c, old(pages)[i], i)]
    {
      var found := pages[i].created && c.sizes[i].s > 0;
      pages := pages[i := pages[i].(s := Some(if found then c.sizes[i].s else 0))];
      if !found { return; }
      pages := pages[i := pages[i].(homeS := pages[i].own, sAt := AtHome)];
    }

    /** `_writeback`. */
    method Writeback(i: nat, k: nat)
      requires i < |pages| == |c.sizes| && k < |slots|
      modifies this`pages
      ensures pages == old(pages)[i := WrittenBack(c, old(pages)[i], slots[k], i)]
    {
      if pages[i].dirty == Clean { return; }
      if !c.cpuOpt && pages[i].s == None && pages[i].dirty == All { AdoptState(i); }
      if pages[i].dirty == All {
        pages := pages[i := pages[i].(homeP := slots[k].p, homeB := slots[k].b)];
      } else if HasBuffers(c, i) {
        pages := pages[i := pages[i].(homeB := slots[k].b)];
      }
      if pages[i].stateIn && pages[i].dirty == All && HasState(pages[i]) {
        pages := pages[i := pages[i].(homeS := slots[k].s)];
      }
      pages := pages[i := pages[i].(dirty := Clean)];
    }

    /** `_evict`. */
    method Evict(k: nat)
      requires k < |slots| && |pages| == |c.sizes|
      requires slots[k].page.Some? ==> slots[k].page.value < |pages|
      modifies this`pages, this`slots
      ensures State() == Evicted(c, old(State()), k)
    {
      if slots[k].page == None { return; }
      var i := slots[k].page.value;
      Writeback(i, k);
      pages := pages[i := pages[i].(pbAt := AtHome)];
      if HasState(pages[i]) {
        pages := pages[i := pages[i].(sAt := AtHome)];
      }
      pages := pages[i := pages[i].(slot := None, stateIn := false)];
      slots := slots[k := slots[k].(page := None)];
    }

    /** `_page_in`. */
    method PageIn(i: nat, k: nat, pb: bool, s: bool)
      requires i < |pages| && k < |slots|
      modifies this`pages, this`slots
      ensures State() == PagedIn(c, old(State()), i, k, pb, s)
    {
      Wait(i);
      if pb {
        slots := slots[k := slots[k].(p := pages[i].homeP, b := pages[i].homeB)];
      }
      if s && HasState(pages[i]) {
        slots := slots[k := slots[k].(s := pages[i].homeS)];
        pages := pages[i := pages[i].(sAt := InSlot(k), stateIn := true)];
      }
      slots := slots[k := slots[k].(page := Some(i))];
      pages := pages[i := pages[i].(slot := Some(k), pbAt := InSlot(k))];
    }

    /** `fetch`. */
    method Fetch(i: nat, state: bool) returns (r: Outcome)
      requires Valid() && i < |pages|
      modifies this`pages, this`slots, this`ops
      ensures Valid() && (r, State()) == Pager.Fetch(c, old(State()), i, state)
      ensures ops == old(ops) + [DoFetch(i, state)] && (old(Logged()) ==> Logged())
    {
      ghost var st := State();
      r := FetchSlice(i, state);
      Log(DoFetch(i, state), st);
    }

    method FetchSlice(i: nat, state: bool) returns (r: Outcome)
      requires Valid() && i < |pages|
      modifies this`pages, this`slots
      ensures Valid() && (r, State()) == Pager.Fetch(c, old(State()), i, state)
    {
      FetchKeeps(c, State(), i, state);
      assert PageOk(c, State(), i);
      var want := state && !c.cpuOpt && HasState(pages[i]);
      if pages[i].slot.Some? {
        if want && !pages[i].stateIn {
          if c.sizes[i].pb + c.sizes[i].g + pages[i].s.value > cap { return Failed(Outgrew); }
          PageIn(i, pages[i].slot.value, false, true);
        }
        return Done;
      }
      if c.sizes[i].pb + c.sizes[i].g + (if want then pages[i].s.value else 0) > cap { return Failed(Outgrew); }
      var v := Victim();
      if v == None { return Failed(EverySlotInUse); }
      assert SlotOk(State(), v.value);
      Evict(v.value);
      PageIn(i, v.value, true, want);
      r := Done;
    }

    /** `acquire`: fetches the slice if it is not resident. */
    method Acquire(i: nat, grads: bool, zeros: Values) returns (r: Outcome)
      requires Valid() && i < |pages|
      modifies this`pages, this`slots, this`clock, this`ops
      ensures Valid() && |pages| == old(|pages|) && (old(Logged()) ==> Logged())
      ensures old(pages[i].slot).Some? ==>
        r == Done && State() == Hold(c, old(State()), i, grads, zeros) && ops == old(ops) + [DoHold(i, grads, zeros)]
      ensures old(pages[i].slot) == None ==>
        var (f, st) := Pager.Fetch(c, old(State()), i, grads);
        r == f && |st.pages| == |pages| && State() == (if r == Done then Hold(c, st, i, grads, zeros) else st)
    {
      r := Done;
      if pages[i].slot == None {
        FetchKeeps(c, State(), i, grads);
        r := Fetch(i, grads);
        if r != Done { return; }
      }
      Occupy(i, grads, zeros);
    }

    /** The rest of `acquire`, once the slice is resident. */
    method Occupy(i: nat, grads: bool, zeros: Values)
      requires Valid() && i < |pages| && pages[i].slot.Some?
      modifies this`slots, this`clock, this`ops
      ensures State() == Hold(c, old(State()), i, grads, zeros) && Valid()
      ensures ops == old(ops) + [DoHold(i, grads, zeros)] && (old(Logged()) ==> Logged())
    {
      ghost var st := State();
      HoldKeeps(c, State(), i, grads, zeros);
      var k := pages[i].slot.value;
      slots := slots[k := slots[k].(busy := true)];
      clock := clock + 1;
      slots := slots[k := slots[k].(last := clock)];
      if grads {
        slots := slots[k := slots[k].(g := zeros)];
      }
      assert State() == Hold(c, old(State()), i, grads, zeros);
      Log(DoHold(i, grads, zeros), st);
    }

    /** What slice `i`'s tensors hold, read through their pointers. */
    method Read(i: nat) returns (v: View, g: Values)
      requires Valid() && Busy(c, State(), i)
      ensures Points(State(), i) && v == Latest(c, State(), i)
      ensures Resident(State(), i) && g == slots[pages[i].slot.value].g
    {
      assert PageOk(c, State(), i);
      var k := pages[i].slot.value;
      g := slots[k].g;
      match pages[i].sAt {
        case Fresh => v := View(slots[k].p, slots[k].b, pages[i].own);
        case AtHome => v := View(slots[k].p, slots[k].b, pages[i].homeS);
        case InSlot(l) => v := View(slots[k].p, slots[k].b, slots[l].s);
      }
    }

    /** What the slice computes on the device, through the tensors' pointers. */
    method Compute(i: nat, v: View, g: Values, level: Dirty)
      requires Valid() && Busy(c, State(), i) && Points(State(), i) && Within(c, i, Latest(c, State(), i), v, level)
      modifies this`pages, this`slots, this`touched, this`ops
      ensures State() == Computed(old(State()), i, v, g, level) && Valid()
      ensures ops == old(ops) + [DoCompute(i, v, g, level)] && (old(Logged()) ==> Logged())
    {
      ghost var st := State();
      ComputedKeeps(c, State(), i, v, g, level);
      assert PageOk(c, State(), i);
      var k := pages[i].slot.value;
      slots := slots[k := slots[k].(p := v.p, b := v.b, g := g)];
      match pages[i].sAt {
        case Fresh => pages := pages[i := pages[i].(own := v.s)];
        case AtHome => pages := pages[i := pages[i].(homeS := v.s)];
        case InSlot(l) => slots := slots[l := slots[l].(s := v.s)];
      }
      if level == All {
        pages := pages[i := pages[i].(created := true)];
      }
      touched := touched[i := Join(touched[i], level)];
      assert State() == Computed(old(State()), i, v, g, level);
      Log(DoCompute(i, v, g, level), st);
    }

    /** `release`. */
    method Release(i: nat, dirty: Dirty)
      requires Valid() && Busy(c, State(), i) && Covers(dirty, touched[i])
      modifies this`pages, this`slots, this`touched, this`ops
      ensures State() == Pager.Release(c, old(State()), i, dirty) && Valid()
      ensures ops == old(ops) + [DoRelease(i, dirty)] && (old(Logged()) ==> Logged())
    {
      ghost var st := State();
      ReleaseKeeps(c, State(), i, dirty);
      assert PageOk(c, State(), i);
      var k := pages[i].slot.value;
      slots := slots[k := slots[k].(busy := false)];
      if dirty == All || (dirty == Buffers && pages[i].dirty == Clean) {
        pages := pages[i := pages[i].(dirty := dirty)];
      }
      Writeback(i, k);
      touched := touched[i := Clean];
      assert State() == Pager.Release(c, old(State()), i, dirty);
      Log(DoRelease(i, dirty), st);
    }

    /** `step_on_cpu`: the step itself stays pending. */
    method StepOnCpu(i: nat, ghost g: Values)
      requires Valid() && c.cpuOpt && Busy(c, State(), i) && touched[i] != All
      requires Resident(State(), i) && g == slots[pages[i].slot.value].g
      modifies this`pages, this`slots, this`touched, this`ops
      ensures State() == Pager.StepOnCpu(c, old(State()), i) && Valid()
      ensures ops == old(ops) + [DoStepOnCpu(i, g)] && (old(Logged()) ==> Logged())
    {
      ghost var st := State();
      StepOnCpuKeeps(c, State(), i);
      assert PageOk(c, State(), i);
      var k := pages[i].slot.value;
      slots := slots[k := slots[k].(busy := false)];
      pages := pages[i := pages[i].(homeG := slots[k].g)];
      if HasBuffers(c, i) {
        pages := pages[i := pages[i].(homeB := slots[k].b)];
      }
      pages := pages[i := pages[i].(pbAt := AtHome)];
      pages := pages[i := pages[i].(slot := None, dirty := Clean)];
      slots := slots[k := slots[k].(page := None)];
      pages := pages[i := pages[i].(pending := true)];
      touched := touched[i := Clean];
      assert State() == Pager.StepOnCpu(c, old(State()), i);
      Log(DoStepOnCpu(i, g), st);
    }

    /** `drain`. */
    method Drain()
      modifies this`pages
      ensures State() == Drained(c, old(State()))
    {
      for i := 0 to |pages|
        invariant |pages| == old(|pages|)
        invariant forall j | 0 <= j < |pages| :: pages[j] == if j < i then Waited(c, old(pages)[j], j)
                                                             else old(pages)[j]
      {
        Wait(i);
      }
    }

    /** `flush`, between batches. */
    method Flush() returns (r: Outcome)
      requires Valid() && NoneBusy(State())
      modifies this`pages, this`slots, this`ops
      ensures Valid() && (r, State()) == Pager.Flush(c, old(State()))
      ensures ops == old(ops) + [DoFlush] && (old(Logged()) ==> Logged())
    {
      ghost var st := State();
      r := FlushSlots();
      Log(DoFlush, st);
    }

    /** Everything home, unless a slice computes. */
    method FlushSlots() returns (r: Outcome)
      requires Valid()
      modifies this`pages, this`slots
      ensures (r, State()) == Pager.Flush(c, old(State())) && (old(NoneBusy(State())) ==> Valid())
    {
      FlushKeeps(c, State());
      forall l: nat | l < |slots| ensures SlotInRange(slots[l], |pages|) { assert SlotOk(State(), l); }
      var k := 0;
      while k < |slots|
        invariant 0 <= k <= |slots| && |pages| == |c.sizes|
        invariant forall l: nat | l < |slots| :: SlotInRange(slots[l], |pages|)
        invariant EmptiedFrom(c, old(State()), 0) == EmptiedFrom(c, State(), k)
      {
        if slots[k].busy { return Failed(BusyFlush); }
        assert SlotInRange(slots[k], |pages|);
        Evict(k);
        k := k + 1;
      }
      Drain();
      r := Done;
    }

    /** `_ensure_cap`. */
    method EnsureCap(nbytes: nat) returns (r: Outcome)
      requires Valid()
      modifies this`pages, this`slots, this`cap
      ensures (r, State()) == Pager.EnsureCap(c, old(State()), nbytes)
    {
      var need := RoundUp(if nbytes > 256 then nbytes else 256, 256);
      if cap >= need { return Done; }
      for k := 0 to |slots|
        invariant forall l | 0 <= l < k :: !slots[l].busy
      {
        if slots[k].busy { return Failed(GrewMidBatch); }
      }
      r := FlushSlots();
      if r == Done { cap := need; }
    }

    /** `end_batch`. */
    method EndBatch() returns (r: Outcome)
      requires Valid() && NoneBusy(State())
      modifies this`pages, this`slots, this`cap, this`ops
      ensures Valid() && (r, State()) == Pager.EndBatch(c, old(State()))
      ensures ops == old(ops) + [DoEndBatch] && (old(Logged()) ==> Logged())
    {
      ghost var st := State();
      r := AdoptAndGrow();
      Log(DoEndBatch, st);
    }

    /** New optimizer state is adopted, and the slots grow for it. */
    method AdoptAndGrow() returns (r: Outcome)
      requires Valid() && NoneBusy(State())
      modifies this`pages, this`slots, this`cap
      ensures Valid() && (r, State()) == Pager.EndBatch(c, old(State()))
    {
      hide Coherent, Pager.Flush, Pager.EnsureCap;
      EndBatchKeeps(c, State());
      if c.cpuOpt { return Done; }
      FlushKeeps(c, State());
      var missing := false;
      for i := 0 to |pages|
        invariant missing <==> exists j | 0 <= j < i :: pages[j].s == None && pages[j].created && c.sizes[j].s > 0
      {
        if pages[i].s == None && pages[i].created && c.sizes[i].s > 0 { missing := true; }
      }
      if missing { var _ := FlushSlots(); }
      var need := Largest();
      r := EnsureCap(need);
    }
  }

  predicate SlotInRange(s: Slot, n: nat) {
    s.page.Some? ==> s.page.value < n
  }
}
