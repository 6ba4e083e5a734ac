/** `SlicePager`: every slice's tensors live in a slow tier and are paged into a few device slots,
    a write-back cache of slices.

    A region (parameters, buffers, gradients, optimizer state) is one value. Where a slice's
    tensors point (`pbAt`, `sAt`) is part of the state, so reading a slice goes through its
    pointers, and a slot that was given to another slice while a tensor still pointed at it would
    be read as that slice's data. Copies take effect at once; `PagerOrdering` is about the streams
    and events that make it look that way. The CPU optimizer step stays pending until something
    waits for it. */
module Pager {
  import opened Wrappers
  import opened Arithmetic
  import opened Network

  datatype Dirty = Clean | Buffers | All

  /** Where a slice's tensors point. `Fresh`: optimizer state where the optimizer created it. */
  datatype Place = AtHome | InSlot(k: nat) | Fresh

  type Values = map<Param, Tensor>

  datatype Page = Page(
    homeP: Values, homeB: Tensor, homeS: Values, homeG: Values,
    slot: Option<nat>, stateIn: bool, dirty: Dirty,
    s: Option<nat>,        // bytes of the optimizer state's layout, once it has one
    pbAt: Place, sAt: Place,
    own: Values,           // the optimizer state while it is `Fresh`
    created: bool,         // the optimizer has created its state
    pending: bool          // a CPU step has been submitted and not waited for
  )

  datatype Slot = Slot(p: Values, b: Tensor, g: Values, s: Values, page: Option<nat>, busy: bool, last: nat)

  /** Bytes of a slice's regions; its buffers start at `bufStart` in `pb`. */
  datatype Sizes = Sizes(pb: nat, bufStart: nat, g: nat, s: nat)

  datatype Failure = EverySlotInUse | Outgrew | BusyFlush | GrewMidBatch

  datatype Outcome = Done | Failed(why: Failure)

  /** The optimizer step of a slice: parameters, state and gradients to parameters and state. */
  type OptStep = (nat, Values, Values, Values) -> (Values, Values)

  datatype Config = Config(sizes: seq<Sizes>, cpuOpt: bool, step: OptStep)

  datatype PagerState = PagerState(pages: seq<Page>, slots: seq<Slot>, touched: seq<Dirty>, clock: nat, cap: nat)

  // ── the flat view ────────────────────────────────────────────────────────────

  /** What a slice's tensors hold, read through their pointers. */
  datatype View = View(p: Values, b: Tensor, s: Values)

  ghost predicate Points(st: PagerState, i: nat)
    requires i < |st.pages|
  {
    && (st.pages[i].pbAt.InSlot? ==> st.pages[i].pbAt.k < |st.slots|)
    && (st.pages[i].sAt.InSlot? ==> st.pages[i].sAt.k < |st.slots|)
  }

  function ReadS(st: PagerState, i: nat): Values
    requires i < |st.pages| && Points(st, i)
  {
    match st.pages[i].sAt
    case Fresh => st.pages[i].own
    case AtHome => st.pages[i].homeS
    case InSlot(k) => st.slots[k].s
  }

  /** The latest value of slice `i`; a pending CPU step counts as done. */
  function Latest(c: Config, st: PagerState, i: nat): View
    requires i < |st.pages| && Points(st, i)
  {
    var pg := st.pages[i];
    var (p, b) := match pg.pbAt
      case InSlot(k) => (st.slots[k].p, st.slots[k].b)
      case _ => (pg.homeP, pg.homeB);
    var s := ReadS(st, i);
    if pg.pending then var after := c.step(i, p, s, pg.homeG); View(after.0, b, after.1) else View(p, b, s)
  }

  // ── the invariant ────────────────────────────────────────────────────────────

  predicate HasState(pg: Page) {
    pg.s.Some? && pg.s.value > 0
  }

  predicate HasBuffers(c: Config, i: nat)
    requires i < |c.sizes|
  {
    c.sizes[i].pb > c.sizes[i].bufStart
  }

  /** The home of a resident slice agrees with its slot, except for what was changed there since
      it was acquired. */
  predicate InSync(pg: Page, s: Slot, touched: Dirty) {
    && (touched != All ==> pg.homeP == s.p && (pg.stateIn ==> pg.homeS == s.s))
    && (touched == Clean ==> pg.homeB == s.b)
  }

  predicate PageOk(c: Config, st: PagerState, i: nat)
    requires i < |st.pages| == |c.sizes| == |st.touched|
  {
    var pg := st.pages[i];
    && pg.dirty == Clean
    && pg.sAt == (if !HasState(pg) then Fresh else if pg.stateIn then pg.pbAt else AtHome)
    && (pg.stateIn ==> HasState(pg))
    && (c.cpuOpt ==> pg.s == None) && (pg.pending ==> c.cpuOpt)
    && match pg.slot
       case None => pg.pbAt == AtHome && !pg.stateIn && st.touched[i] == Clean
       case Some(k) =>
         && k < |st.slots| && st.slots[k].page == Some(i) && pg.pbAt == InSlot(k) && !pg.pending
         && InSync(pg, st.slots[k], st.touched[i])
         && (!st.slots[k].busy ==> st.touched[i] == Clean)
         && (!HasBuffers(c, i) ==> pg.homeB == st.slots[k].b)
  }

  predicate SlotOk(st: PagerState, k: nat)
    requires k < |st.slots|
  {
    && (st.slots[k].busy ==> st.slots[k].page.Some?)
    && (st.slots[k].page.Some? ==>
          st.slots[k].page.value < |st.pages| && st.pages[st.slots[k].page.value].slot == Some(k))
  }

  /** The slot-page map is one-to-one, and every page and slot is in order. */
  ghost predicate Coherent(c: Config, st: PagerState) {
    && |st.pages| == |c.sizes| == |st.touched| && 2 <= |st.slots|
    && (forall i: nat | i < |st.pages| :: PageOk(c, st, i))
    && (forall k: nat | k < |st.slots| :: SlotOk(st, k))
  }

  lemma CoherentPoints(c: Config, st: PagerState, i: nat)
    requires Coherent(c, st) && i < |st.pages|
    ensures Points(st, i)
  {
    assert PageOk(c, st, i);
  }

  /** Two slices are never in the same slot. */
  lemma OneToOne(c: Config, st: PagerState, i: nat, j: nat)
    requires Coherent(c, st) && i < |st.pages| && j < |st.pages|
    requires st.pages[i].slot.Some? && st.pages[i].slot == st.pages[j].slot
    ensures i == j
  {
    assert PageOk(c, st, i) && PageOk(c, st, j);
  }

  /** Every slice reads the same in both states. */
  ghost predicate SameView(c: Config, a: PagerState, b: PagerState)
    requires Coherent(c, a) && Coherent(c, b) && |a.pages| == |b.pages|
  {
    forall i: nat | i < |a.pages| :: SameAt(c, a, b, i)
  }

  ghost predicate SameAt(c: Config, a: PagerState, b: PagerState, i: nat)
    requires Coherent(c, a) && Coherent(c, b) && i < |a.pages| == |b.pages|
  {
    CoherentPoints(c, a, i);
    CoherentPoints(c, b, i);
    Latest(c, a, i) == Latest(c, b, i)
  }

  /** Every slice is at home, and its home holds the latest value. */
  ghost predicate AllHome(c: Config, st: PagerState)
    requires Coherent(c, st)
  {
    forall i: nat | i < |st.pages| :: HomeAt(c, st, i)
  }

  ghost predicate HomeAt(c: Config, st: PagerState, i: nat)
    requires Coherent(c, st) && i < |st.pages|
  {
    CoherentPoints(c, st, i);
    var pg, v := st.pages[i], Latest(c, st, i);
    && pg.slot == None && !pg.pending && pg.homeP == v.p && pg.homeB == v.b
    && (HasState(pg) ==> pg.homeS == v.s)
  }

  // ── residency: which slice is where ──────────────────────────────────────────

  datatype Use = Use(page: Option<nat>, busy: bool, last: nat)

  /** The part of the state that decides where slices go: what the slots hold, and which slices
      have their optimizer state with them. `loads` counts page-ins of parameters. */
  datatype Residency = Residency(slots: seq<Use>, stateIn: set<nat>, clock: nat, loads: nat)

  function UseOf(s: Slot): Use {
    Use(s.page, s.busy, s.last)
  }

  function Uses(slots: seq<Slot>): (us: seq<Use>)
    ensures |us| == |slots| && forall k | 0 <= k < |slots| :: us[k] == UseOf(slots[k])
  {
    seq(|slots|, k requires 0 <= k < |slots| => UseOf(slots[k]))
  }

  /** The first empty idle slot from `k` on. */
  function FirstEmpty(us: seq<Use>, k: nat): (r: Option<nat>)
    requires k <= |us|
    ensures r.Some? ==> k <= r.value < |us| && !us[r.value].busy && us[r.value].page == None
    ensures r.Some? ==> forall j | k <= j < r.value :: us[j].busy || us[j].page.Some?
    ensures r.None? ==> forall j | k <= j < |us| :: us[j].busy || us[j].page.Some?
    decreases |us| - k
  {
    if k == |us| then None
    else if !us[k].busy && us[k].page == None then Some(k)
    else FirstEmpty(us, k + 1)
  }

  /** The idle slot used longest ago, the first of them if there are several. */
  function Oldest(us: seq<Use>, k: nat): (r: Option<nat>)
    requires k <= |us|
    ensures r.Some? ==> r.value < k && !us[r.value].busy
    ensures r.Some? ==> forall j | 0 <= j < k && !us[j].busy :: us[r.value].last <= us[j].last
    ensures r.Some? ==> forall j | 0 <= j < r.value && !us[j].busy :: us[r.value].last < us[j].last
    ensures r.None? ==> forall j | 0 <= j < k :: us[j].busy
  {
    if k == 0 then None
    else
      var r := Oldest(us, k - 1);
      if us[k - 1].busy then r
      else if r.Some? && us[r.value].last <= us[k - 1].last then r
      else Some(k - 1)
  }

  function VictimOf(us: seq<Use>): (r: Option<nat>)
    ensures r.Some? ==> r.value < |us| && !us[r.value].busy
    ensures r.None? <==> forall k | 0 <= k < |us| :: us[k].busy
  {
    var e := FirstEmpty(us, 0);
    if e.Some? then e else Oldest(us, |us|)
  }

  function SlotOf(us: seq<Use>, i: nat, k: nat): (r: Option<nat>)
    requires k <= |us|
    ensures r.Some? ==> k <= r.value < |us| && us[r.value].page == Some(i)
    ensures r.None? ==> forall j | k <= j < |us| :: us[j].page != Some(i)
    decreases |us| - k
  {
    if k == |us| then None else if us[k].page == Some(i) then Some(k) else SlotOf(us, i, k + 1)
  }

  /** Where everything is after `fetch(i)` succeeded. */
  function Fetched(r: Residency, i: nat, want: bool): Residency {
    if SlotOf(r.slots, i, 0).Some? then r.(stateIn := if want then r.stateIn + {i} else r.stateIn)
    else
      var v := VictimOf(r.slots);
      if v == None then r
      else
        var was := r.slots[v.value].page;
        r.(slots := r.slots[v.value := r.slots[v.value].(page := Some(i))],
           stateIn := (if was.Some? then r.stateIn - {was.value} else r.stateIn) + (if want then {i} else {}),
           loads := r.loads + 1)
  }

  /** After `acquire(i)` of a resident slice. */
  function Acquired(r: Residency, i: nat): Residency {
    var k := SlotOf(r.slots, i, 0);
    if k == None then r
    else r.(slots := r.slots[k.value := Use(Some(i), true, r.clock + 1)], clock := r.clock + 1)
  }

  /** After `release(i, _)`. */
  function Released(r: Residency, i: nat): Residency {
    var k := SlotOf(r.slots, i, 0);
    if k == None then r else r.(slots := r.slots[k.value := r.slots[k.value].(busy := false)])
  }

  /** After `step_on_cpu(i)`: the slice is out. */
  function SteppedOut(r: Residency, i: nat): Residency {
    var k := SlotOf(r.slots, i, 0);
    if k == None then r else r.(slots := r.slots[k.value := r.slots[k.value].(page := None, busy := false)])
  }

  // ── the operations ───────────────────────────────────────────────────────────

  /** Bytes slice `i` needs in a slot. */
  function SlotBytes(c: Config, st: PagerState, i: nat, withState: bool): nat
    requires i < |st.pages| == |c.sizes|
  {
    c.sizes[i].pb + c.sizes[i].g + (if withState && st.pages[i].s.Some? then st.pages[i].s.value else 0)
  }

  function WantState(c: Config, st: PagerState, i: nat, state: bool): bool
    requires i < |st.pages|
  {
    state && !c.cpuOpt && HasState(st.pages[i])
  }

  /** `home_ready.result()`: the pending CPU step is done. */
  function Waited(c: Config, pg: Page, i: nat): Page {
    if pg.pending then
      var after := c.step(i, pg.homeP, pg.own, pg.homeG);
      pg.(homeP := after.0, own := after.1, pending := false)
    else pg
  }

  /** `_adopt_state`: the state tensors the optimizer created get a layout and a home. */
  function Adopted(c: Config, pg: Page, i: nat): Page
    requires i < |c.sizes|
  {
    if pg.created && c.sizes[i].s > 0 then pg.(s := Some(c.sizes[i].s), homeS := pg.own, sAt := AtHome)
    else pg.(s := Some(0))
  }

  /** `_writeback`: what changed in the slot goes home; the slice stays resident. */
  function WrittenBack(c: Config, pg: Page, s: Slot, i: nat): Page
    requires i < |c.sizes|
  {
    var pg1 := if !c.cpuOpt && pg.s == None && pg.dirty == All then Adopted(c, pg, i) else pg;
    pg1.(homeP := if pg.dirty == All then s.p else pg1.homeP,
         homeB := if pg.dirty == All || (pg.dirty == Buffers && HasBuffers(c, i)) then s.b else pg1.homeB,
         homeS := if pg.dirty == All && pg1.stateIn && HasState(pg1) then s.s else pg1.homeS,
         dirty := Clean)
  }

  /** `_evict`: whatever slot `k` holds goes home, and its tensors point there. */
  function Evicted(c: Config, st: PagerState, k: nat): PagerState
    requires k < |st.slots| && |st.pages| == |c.sizes|
  {
    match st.slots[k].page
    case None => st
    case Some(i) =>
      if i >= |st.pages| then st
      else
        var pg := WrittenBack(c, st.pages[i], st.slots[k], i);
        var home := pg.(pbAt := AtHome, sAt := if HasState(pg) then AtHome else pg.sAt, slot := None, stateIn := false);
        st.(pages := st.pages[i := home], slots := st.slots[k := st.slots[k].(page := None)])
  }

  /** `_page_in` of slice `i` to slot `k`: its parameters and buffers (`pb`), its state (`s`). */
  function PagedIn(c: Config, st: PagerState, i: nat, k: nat, pb: bool, s: bool): PagerState
    requires i < |st.pages| && k < |st.slots|
  {
    var pg := Waited(c, st.pages[i], i);
    var slot := st.slots[k];
    var inState := s && HasState(pg);
    st.(pages := st.pages[i := pg.(slot := Some(k), pbAt := InSlot(k), stateIn := pg.stateIn || inState,
                                   sAt := if inState then InSlot(k) else pg.sAt)],
        slots := st.slots[k := slot.(p := if pb then pg.homeP else slot.p, b := if pb then pg.homeB else slot.b,
                                     s := if inState then pg.homeS else slot.s, page := Some(i))])
  }

  /** `fetch`. */
  function Fetch(c: Config, st: PagerState, i: nat, state: bool): (Outcome, PagerState)
    requires i < |st.pages| == |c.sizes|
  {
    var pg := st.pages[i];
    var want := WantState(c, st, i, state);
    if pg.slot.Some? then
      if want && !pg.stateIn && pg.slot.value < |st.slots| then
        if SlotBytes(c, st, i, true) > st.cap then (Failed(Outgrew), st)
        else (Done, PagedIn(c, st, i, pg.slot.value, false, true))
      else (Done, st)
    else if SlotBytes(c, st, i, want) > st.cap then (Failed(Outgrew), st)
    else
      var v := VictimOf(Uses(st.slots));
      if v == None then (Failed(EverySlotInUse), st)
      else (Done, PagedIn(c, Evicted(c, st, v.value), i, v.value, true, want))
  }

  /** Slice `i` is in a slot. */
  predicate Resident(st: PagerState, i: nat)
    requires i < |st.pages|
  {
    st.pages[i].slot.Some? && st.pages[i].slot.value < |st.slots|
  }

  /** `acquire` of a resident slice: its slot is busy, and for a backward its gradients are zero. */
  function Hold(c: Config, st: PagerState, i: nat, grads: bool, zeros: Values): PagerState
    requires i < |st.pages|
  {
    if !Resident(st, i) then st
    else
      var k := st.pages[i].slot.value;
      var slot := st.slots[k];
      st.(slots := st.slots[k := slot.(busy := true, last := st.clock + 1, g := if grads then zeros else slot.g)],
          clock := st.clock + 1)
  }

  /** The slice's computation: forwards, backwards and a step on the device, through its pointers.
      `level` is how much of it changed. */
  function Computed(st: PagerState, i: nat, v: View, g: Values, level: Dirty): PagerState
    requires i < |st.pages| == |st.touched|
  {
    if !Resident(st, i) then st
    else
      var pg := st.pages[i];
      var k := pg.slot.value;
      var pg' := pg.(homeS := if pg.sAt == AtHome then v.s else pg.homeS,
                     own := if pg.sAt == Fresh then v.s else pg.own,
                     created := pg.created || level == All);
      st.(pages := st.pages[i := pg'],
          slots := st.slots[k := st.slots[k].(p := v.p, b := v.b, g := g,
                                             s := if pg.sAt.InSlot? then v.s else st.slots[k].s)],
          touched := st.touched[i := Join(st.touched[i], level)])
  }

  function Join(a: Dirty, b: Dirty): Dirty {
    if a == All || b == All then All else if a == Buffers || b == Buffers then Buffers else Clean
  }

  /** `release`. */
  function Release(c: Config, st: PagerState, i: nat, dirty: Dirty): PagerState
    requires i < |st.pages| == |c.sizes| == |st.touched|
  {
    if !Resident(st, i) then st
    else
      var k := st.pages[i].slot.value;
      var pg := st.pages[i];
      var pg' := pg.(dirty := if dirty == All || (dirty == Buffers && pg.dirty == Clean) then dirty else pg.dirty);
      st.(pages := st.pages[i := WrittenBack(c, pg', st.slots[k], i)],
          slots := st.slots[k := st.slots[k].(busy := false)],
          touched := st.touched[i := Clean])
  }

  /** `step_on_cpu`. */
  function StepOnCpu(c: Config, st: PagerState, i: nat): PagerState
    requires i < |st.pages| == |c.sizes| == |st.touched|
  {
    if !Resident(st, i) then st
    else
      var pg := st.pages[i];
      var k := pg.slot.value;
      var slot := st.slots[k];
      var pg' := pg.(homeG := slot.g, homeB := if HasBuffers(c, i) then slot.b else pg.homeB,
                     pbAt := AtHome, slot := None, dirty := Clean, pending := true);
      st.(pages := st.pages[i := pg'], slots := st.slots[k := slot.(busy := false, page := None)],
          touched := st.touched[i := Clean])
  }

  /** The first loop of `flush`: every slot from `k` on is emptied, unless one is busy. */
  function EmptiedFrom(c: Config, st: PagerState, k: nat): (Outcome, PagerState)
    requires k <= |st.slots| && |st.pages| == |c.sizes|
    decreases |st.slots| - k
  {
    if k == |st.slots| then (Done, st)
    else if st.slots[k].busy then (Failed(BusyFlush), st)
    else EmptiedFrom(c, Evicted(c, st, k), k + 1)
  }

  /** `drain`: every pending CPU step is waited for. */
  function Drained(c: Config, st: PagerState): PagerState {
    st.(pages := seq(|st.pages|, i requires 0 <= i < |st.pages| => Waited(c, st.pages[i], i)))
  }

  function Flush(c: Config, st: PagerState): (Outcome, PagerState)
    requires |st.pages| == |c.sizes|
  {
    var (r, st') := EmptiedFrom(c, st, 0);
    if r == Done then (r, Drained(c, st')) else (r, st')
  }

  /** `_ensure_cap`: slots grow between batches, once everything is at home. */
  function EnsureCap(c: Config, st: PagerState, nbytes: nat): (Outcome, PagerState)
    requires |st.pages| == |c.sizes|
  {
    var need := RoundUp(if nbytes > 256 then nbytes else 256, 256);
    if st.cap >= need then (Done, st)
    else if exists k | 0 <= k < |st.slots| :: st.slots[k].busy then (Failed(GrewMidBatch), st)
    else
      var (r, st') := Flush(c, st);
      (r, if r == Done then st'.(cap := need) else st')
  }

  /** The most bytes a slice needs in a slot, its state included. */
  function Need(c: Config, st: PagerState, k: nat): (m: nat)
    requires k <= |st.pages| == |c.sizes|
    ensures forall i: nat | i < k :: SlotBytes(c, st, i, true) <= m
  {
    if k == 0 then 0
    else
      var m := Need(c, st, k - 1);
      var b := SlotBytes(c, st, k - 1, true);
      if m < b then b else m
  }

  /** `end_batch`. */
  function EndBatch(c: Config, st: PagerState): (Outcome, PagerState)
    requires |st.pages| == |c.sizes|
  {
    if c.cpuOpt then (Done, st)
    else
      var (r, st') := if exists i | 0 <= i < |st.pages| ::
        st.pages[i].s == None && st.pages[i].created && c.sizes[i].s > 0
                      then Flush(c, st) else (Done, st);
      if r != Done || |st'.pages| != |c.sizes| then (r, st') else EnsureCap(c, st', Need(c, st', |st'.pages|))
  }
}
