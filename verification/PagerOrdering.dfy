/** The pager's copies and computations run on three CUDA streams and a step thread, each in FIFO
    order, and are ordered across them by events only. However long everything takes, any two accesses
    to the same slot or the same home, one of them a write, are proved not to overlap.

    A run is timed: every operation has a delay and a length of its own, and starts that delay after
    what its queue, the host and the events it waits for let it. A queue's time is when all it was
    given so far has ended; an event's when what it records has; the host's where it has got to. */
module PagerOrdering {
  import opened Wrappers
  import opened Pager

  datatype Queue = Compute | H2D | D2H | Steps

  datatype Access = Access(queue: Queue, start: real, end: real, write: bool)

  function Max(a: real, b: real): real {
    if a < b then b else a
  }

  /** Conflicting accesses of a location, in the order they were issued, do not overlap. */
  ghost predicate Ordered(log: seq<Access>) {
    forall x: nat, y: nat | x < y < |log| && (log[x].write || log[y].write) :: log[x].end <= log[y].start
  }

  lemma OrderedNext(log: seq<Access>, b: Access)
    requires Ordered(log) && forall a | a in log && (a.write || b.write) :: a.end <= b.start
    ensures Ordered(log + [b])
  {
  }

  /** A slot's memory: its accesses and its events (zero: none yet). `blank`: allocated, not yet
      copied into. */
  datatype SlotEv = SlotEv(log: seq<Access>, ready: real, free: real, out: real,
                           blank: bool, busy: bool, page: Option<nat>)

  /** A slice's homes: the parameters, buffers and gradients, and the optimizer state. `ev`: the
      last D2H into it; `pending`: the CPU step to wait for. `spans`: it has gradients or buffers. */
  datatype PageEv = PageEv(pb: seq<Access>, s: seq<Access>, ev: real, pending: Option<real>,
                           slot: Option<nat>, spans: bool)

  datatype Machine = Machine(c: real, h: real, d: real, t: real, host: real,
                             slots: seq<SlotEv>, pages: seq<PageEv>)

  /** How long an operation is held up beyond what it waits for, and how long it takes. */
  datatype Work = Work(delay: real, length: real) {
    predicate Valid() {
      delay >= 0.0 && length >= 0.0
    }
  }

  datatype Step =
    | SPageIn(i: nat, k: nat, pb: bool, s: bool, w: Work)
    | SAcquire(k: nat)
    | SCompute(k: nat, w: Work)
    | SRelease(k: nat, pb: bool, s: bool, w: Work)
    | SStepOnCpu(k: nat, w: Work, step: Work)
    | SAdopt(i: nat, w: Work)
    | SEvict(k: nat)
    | SGrow
    | SHost(delay: real)

  /** What the pager's callers respect: a slice is fetched while it does not compute, and computes
      between acquire and release. */
  predicate Allowed(m: Machine, a: Step) {
    match a
    case SPageIn(i, k, pb, _, w) =>
      && w.Valid() && i < |m.pages| && k < |m.slots| && !m.slots[k].busy
      && if pb then m.pages[i].slot == None && m.slots[k].page == None
         else m.pages[i].slot == Some(k) && m.slots[k].page == Some(i)
    case SAcquire(k) => k < |m.slots| && m.slots[k].page.Some? && !m.slots[k].busy
    case SCompute(k, w) => w.Valid() && k < |m.slots| && m.slots[k].busy
    case SRelease(k, _, _, w) => w.Valid() && k < |m.slots| && m.slots[k].busy
    case SStepOnCpu(k, w, step) => w.Valid() && step.Valid() && k < |m.slots| && m.slots[k].busy
    case SAdopt(i, w) => w.Valid() && i < |m.pages| && m.pages[i].s == []
    case SEvict(k) => k < |m.slots| && !m.slots[k].busy
    case SGrow => forall k | 0 <= k < |m.slots| :: !m.slots[k].busy
    case SHost(delay) => delay >= 0.0
  }

  /** `home_ready.result()`. */
  function HostAfterWait(m: Machine, i: nat): real
    requires i < |m.pages|
  {
    if m.pages[i].pending.Some? then Max(m.host, m.pages[i].pending.value) else m.host
  }

  /** What a page-in waits for: the slot's last compute and drain, the last write of the home, and, in
      a slot just allocated, the compute already queued, which may still be using that memory. */
  function PageInWaits(m: Machine, i: nat, k: nat): real
    requires i < |m.pages| && k < |m.slots|
  {
    var sl := m.slots[k];
    var events := Max(Max(sl.free, sl.out), m.pages[i].ev);
    Max(Max(m.h, HostAfterWait(m, i)), if sl.blank then Max(events, m.c) else events)
  }

  /** `_page_in`. */
  function PageIn(m: Machine, i: nat, k: nat, pb: bool, s: bool, w: Work): Machine
    requires i < |m.pages| && k < |m.slots|
  {
    var start := PageInWaits(m, i, k) + w.delay;
    var end := start + w.length;
    var sl, pg := m.slots[k], m.pages[i];
    var log := if sl.blank then sl.log + [Access(Compute, m.c, m.c, true)] else sl.log;
    m.(h := end, host := HostAfterWait(m, i),
       slots := m.slots[k := sl.(log := log + [Access(H2D, start, end, true)],
                                 ready := end, blank := false, page := Some(i))],
       pages := m.pages[i := pg.(pb := if pb then pg.pb + [Access(H2D, start, end, false)] else pg.pb,
                                 s := if s then pg.s + [Access(H2D, start, end, false)] else pg.s,
                                 pending := None, slot := Some(k))])
  }

  /** `acquire`: the compute stream waits for the slot's page-in and its last drain. */
  function Acquire(m: Machine, k: nat): Machine
    requires k < |m.slots|
  {
    m.(c := Max(Max(m.c, m.host), Max(m.slots[k].ready, m.slots[k].out)),
       slots := m.slots[k := m.slots[k].(busy := true)])
  }

  function ComputeOn(m: Machine, k: nat, w: Work): Machine
    requires k < |m.slots|
  {
    var start := Max(m.c, m.host) + w.delay;
    var end := start + w.length;
    m.(c := end, slots := m.slots[k := m.slots[k].(log := m.slots[k].log + [Access(Compute, start, end, true)])])
  }

  /** `release`, with the write-back of what changed: the D2H waits for the slot's compute. */
  function Release(m: Machine, k: nat, pb: bool, s: bool, w: Work): Machine
    requires k < |m.slots|
  {
    var sl := m.slots[k].(busy := false, free := m.c);
    if sl.page == None || sl.page.value >= |m.pages| || !(pb || s) then m.(slots := m.slots[k := sl])
    else
      var i := sl.page.value;
      var start := Max(Max(m.d, m.host), sl.free) + w.delay;
      var end := start + w.length;
      var pg := m.pages[i];
      m.(d := end,
         slots := m.slots[k := sl.(log := sl.log + [Access(D2H, start, end, false)], out := end)],
         pages := m.pages[i := pg.(pb := if pb then pg.pb + [Access(D2H, start, end, true)] else pg.pb,
                                   s := if s then pg.s + [Access(D2H, start, end, true)] else pg.s,
                                   ev := end)])
  }

  /** `step_on_cpu`: gradients and buffers go home, then the step thread waits for that copy and
      steps on the home. A slice with neither has nothing to step. */
  function StepOnCpu(m: Machine, k: nat, w: Work, step: Work): Machine
    requires k < |m.slots|
  {
    var sl := m.slots[k].(busy := false, free := m.c, page := None);
    if m.slots[k].page == None || m.slots[k].page.value >= |m.pages| then m.(slots := m.slots[k := sl])
    else
      var i := m.slots[k].page.value;
      var pg := m.pages[i].(slot := None);
      if !pg.spans then
        var ends := Max(m.t, m.host) + step.delay + step.length;
        m.(t := ends, slots := m.slots[k := sl], pages := m.pages[i := pg.(pending := Some(ends))])
      else
        var start := Max(Max(m.d, m.host), sl.free) + w.delay;
        var end := start + w.length;
        var steps := Max(Max(m.t, m.host), end) + step.delay;
        var ends := steps + step.length;
        m.(d := end, t := ends,
           slots := m.slots[k := sl.(log := sl.log + [Access(D2H, start, end, false)], out := end)],
           pages := m.pages[i := pg.(pb := pg.pb + [Access(D2H, start, end, true)] + [Access(Steps, steps, ends, true)],
                                     ev := end, pending := Some(ends))])
  }

  /** `_adopt_state`: the host waits for the compute stream and copies to a new home. */
  function Adopt(m: Machine, i: nat, w: Work): Machine
    requires i < |m.pages|
  {
    var start := Max(m.c, m.host) + w.delay;
    var end := start + w.length;
    m.(c := end, host := end,
       pages := m.pages[i := m.pages[i].(s := m.pages[i].s + [Access(Compute, start, end, true)])])
  }

  /** `_evict`: nothing is copied, everything was written back at release. */
  function Evict(m: Machine, k: nat): Machine
    requires k < |m.slots|
  {
    var page := m.slots[k].page;
    m.(slots := m.slots[k := m.slots[k].(page := None)],
       pages := if page.Some? && page.value < |m.pages| then m.pages[page.value := m.pages[page.value].(slot := None)]
                else m.pages)
  }

  /** `_ensure_cap`: everything is paged out and waited for, and every slot gets new memory. */
  function Grow(m: Machine): Machine {
    m.(host := Max(Max(Max(m.host, m.c), Max(m.h, m.d)), m.t),
       slots := seq(|m.slots|, k => SlotEv([], 0.0, 0.0, 0.0, true, false, None)),
       pages := seq(|m.pages|, i requires 0 <= i < |m.pages| => m.pages[i].(slot := None, pending := None)))
  }

  function Take(m: Machine, a: Step): Machine
    requires Allowed(m, a)
  {
    match a
    case SPageIn(i, k, pb, s, w) => PageIn(m, i, k, pb, s, w)
    case SAcquire(k) => Acquire(m, k)
    case SCompute(k, w) => ComputeOn(m, k, w)
    case SRelease(k, pb, s, w) => Release(m, k, pb, s, w)
    case SStepOnCpu(k, w, step) => StepOnCpu(m, k, w, step)
    case SAdopt(i, w) => Adopt(m, i, w)
    case SEvict(k) => Evict(m, k)
    case SGrow => Grow(m)
    case SHost(delay) => m.(host := m.host + delay)
  }

  // ── the invariant ────────────────────────────────────────────────────────────

  /** Every access of a slot has ended when its event for that queue has. */
  predicate SlotCovers(sl: SlotEv, m: Machine, a: Access) {
    match a.queue
    case Compute => a.end <= (if sl.busy then m.c else Max(sl.free, sl.ready))
    case H2D => a.end <= sl.ready
    case D2H => a.end <= sl.out
    case Steps => false
  }

  ghost predicate SlotSafe(m: Machine, k: nat)
    requires k < |m.slots|
  {
    var sl := m.slots[k];
    && Ordered(sl.log) && (forall a | a in sl.log :: SlotCovers(sl, m, a))
    && sl.ready <= m.h && sl.free <= m.c
    && (sl.busy ==> sl.ready <= m.c && sl.out <= m.c && sl.page.Some?)
    && (sl.blank ==> sl.log == [] && sl.page == None)
    && (sl.page.Some? ==> sl.page.value < |m.pages| && m.pages[sl.page.value].slot == Some(k))
  }

  /** Every access of a home has ended when the last D2H into it has, the slot the slice is in is
      ready, and the host got where it is. */
  predicate HomeCovers(pg: PageEv, m: Machine, a: Access) {
    match a.queue
    case Compute => a.end <= m.host
    case H2D => if pg.slot.Some? && pg.slot.value < |m.slots| then a.end <= m.slots[pg.slot.value].ready
                else a.end <= m.h
    case D2H => a.end <= pg.ev
    case Steps => a.end <= (if pg.pending.Some? then pg.pending.value else m.host)
  }

  ghost predicate HomeSafe(m: Machine, i: nat)
    requires i < |m.pages|
  {
    var pg := m.pages[i];
    && Ordered(pg.pb) && Ordered(pg.s)
    && (forall a | a in pg.pb :: HomeCovers(pg, m, a)) && (forall a | a in pg.s :: HomeCovers(pg, m, a))
    && pg.ev <= m.d && (pg.pending.Some? ==> pg.pending.value <= m.t)
    && (pg.slot.Some? ==> pg.slot.value < |m.slots| && m.slots[pg.slot.value].page == Some(i) && pg.pending == None)
  }

  ghost predicate RaceFree(m: Machine) {
    && (forall k: nat | k < |m.slots| :: SlotSafe(m, k)) && (forall i: nat | i < |m.pages| :: HomeSafe(m, i))
    && 0.0 <= m.c && 0.0 <= m.h && 0.0 <= m.d
  }

  // ── every step keeps it ──────────────────────────────────────────────────────

  /** Time goes on. */
  ghost predicate Later(m: Machine, m': Machine) {
    && m.c <= m'.c && m.h <= m'.h && m.d <= m'.d && m.t <= m'.t && m.host <= m'.host
    && |m'.slots| == |m.slots| && |m'.pages| == |m.pages|
  }

  /** A slot the step does not touch. */
  lemma OtherSlot(m: Machine, m': Machine, k: nat)
    requires Later(m, m') && k < |m.slots| && SlotSafe(m, k) && m'.slots[k] == m.slots[k]
    requires m.slots[k].page.Some? ==>
        m.slots[k].page.value < |m.pages| && m'.pages[m.slots[k].page.value].slot == Some(k)
    ensures SlotSafe(m', k)
  {
  }

  /** A home the step does not touch. */
  lemma OtherHome(m: Machine, m': Machine, i: nat)
    requires Later(m, m') && i < |m.pages| && HomeSafe(m, i) && m'.pages[i] == m.pages[i]
    requires m.pages[i].slot.Some? ==>
      var k := m.pages[i].slot.value;
      k < |m.slots| && m'.slots[k].page == Some(i) && m.slots[k].ready <= m'.slots[k].ready
    ensures HomeSafe(m', i)
  {
  }

  lemma PageInSafe(m: Machine, i: nat, k: nat, pb: bool, s: bool, w: Work)
    requires RaceFree(m) && Allowed(m, SPageIn(i, k, pb, s, w))
    ensures RaceFree(PageIn(m, i, k, pb, s, w))
  {
    var m' := PageIn(m, i, k, pb, s, w);
    assert SlotSafe(m, k) && HomeSafe(m, i);
    assert Later(m, m');
    PageInSlot(m, i, k, pb, s, w);
    PageInHome(m, i, k, pb, s, w);
    forall l: nat | l < |m.slots| ensures SlotSafe(m', l) {
      assert SlotSafe(m, l);
      if l != k { OtherSlot(m, m', l); }
    }
    forall j: nat | j < |m.pages| ensures HomeSafe(m', j) {
      assert HomeSafe(m, j);
      if j != i { OtherHome(m, m', j); }
    }
  }

  lemma PageInSlot(m: Machine, i: nat, k: nat, pb: bool, s: bool, w: Work)
    requires RaceFree(m) && Allowed(m, SPageIn(i, k, pb, s, w))
    ensures SlotSafe(PageIn(m, i, k, pb, s, w), k)
  {
    assert SlotSafe(m, k) && HomeSafe(m, i);
    var m' := PageIn(m, i, k, pb, s, w);
    var sl := m.slots[k];
    var start := PageInWaits(m, i, k) + w.delay;
    var b := Access(H2D, start, start + w.length, true);
    var log := if sl.blank then sl.log + [Access(Compute, m.c, m.c, true)] else sl.log;
    forall a | a in log ensures a.end <= b.start && (a in sl.log ==> SlotCovers(sl, m, a)) { }
    assert Ordered(log);
    OrderedNext(log, b);
    assert m'.slots[k].log == log + [b];
    hide Ordered;
  }

  /** Everything done to a home has ended when what a page-in of it waits for has. */
  lemma HomeRead(m: Machine, i: nat, before: real)
    requires RaceFree(m) && i < |m.pages|
    requires m.h <= before && m.pages[i].ev <= before && HostAfterWait(m, i) <= before
    ensures forall a | a in m.pages[i].pb || a in m.pages[i].s :: a.end <= before
  {
    assert HomeSafe(m, i);
    var pg := m.pages[i];
    if pg.slot.Some? { assert SlotSafe(m, pg.slot.value); }
    hide Ordered, SlotSafe;
    forall a | a in pg.pb || a in pg.s ensures a.end <= before { assert HomeCovers(pg, m, a); }
  }

  lemma PageInHome(m: Machine, i: nat, k: nat, pb: bool, s: bool, w: Work)
    requires RaceFree(m) && Allowed(m, SPageIn(i, k, pb, s, w))
    ensures HomeSafe(PageIn(m, i, k, pb, s, w), i)
  {
    assert HomeSafe(m, i);
    var pg := m.pages[i];
    var start := PageInWaits(m, i, k) + w.delay;
    var b := Access(H2D, start, start + w.length, false);
    HomeRead(m, i, start);
    OrderedNext(pg.pb, b);
    OrderedNext(pg.s, b);
    PageInCovers(m, i, k, pb, s, w);
    hide Ordered, HomeCovers, SlotSafe, RaceFree;
  }

  lemma PageInCovers(m: Machine, i: nat, k: nat, pb: bool, s: bool, w: Work)
    requires RaceFree(m) && Allowed(m, SPageIn(i, k, pb, s, w))
    ensures var m' := PageIn(m, i, k, pb, s, w);
      && (forall a | a in m'.pages[i].pb :: HomeCovers(m'.pages[i], m', a))
      && (forall a | a in m'.pages[i].s :: HomeCovers(m'.pages[i], m', a))
  {
    assert HomeSafe(m, i);
    if m.pages[i].slot.Some? { assert SlotSafe(m, k); }
    hide Ordered;
    var m' := PageIn(m, i, k, pb, s, w);
    forall a | a in m.pages[i].pb || a in m.pages[i].s ensures HomeCovers(m'.pages[i], m', a) {
      assert HomeCovers(m.pages[i], m, a);
    }
  }

  lemma ComputeSafe(m: Machine, k: nat, w: Work)
    requires RaceFree(m) && Allowed(m, SCompute(k, w))
    ensures RaceFree(ComputeOn(m, k, w))
  {
    var m' := ComputeOn(m, k, w);
    assert SlotSafe(m, k) && Later(m, m');
    var start := Max(m.c, m.host) + w.delay;
    forall a | a in m.slots[k].log ensures a.end <= start { assert SlotCovers(m.slots[k], m, a); }
    OrderedNext(m.slots[k].log, Access(Compute, start, start + w.length, true));
    assert SlotSafe(m', k);
    forall l: nat | l < |m.slots| ensures SlotSafe(m', l) {
      assert SlotSafe(m, l);
      if l != k { OtherSlot(m, m', l); }
    }
    forall j: nat | j < |m.pages| ensures HomeSafe(m', j) {
      assert HomeSafe(m, j);
      OtherHome(m, m', j);
    }
  }

  lemma AcquireSafe(m: Machine, k: nat)
    requires RaceFree(m) && Allowed(m, SAcquire(k))
    ensures RaceFree(Acquire(m, k))
  {
    var m' := Acquire(m, k);
    assert SlotSafe(m, k) && Later(m, m');
    forall l: nat | l < |m.slots| ensures SlotSafe(m', l) {
      assert SlotSafe(m, l);
      if l != k { OtherSlot(m, m', l); }
    }
    forall j: nat | j < |m.pages| ensures HomeSafe(m', j) {
      assert HomeSafe(m, j);
      OtherHome(m, m', j);
    }
  }

  /** While a slice computes, everything done to its home so far has ended when what its release
      waits for has. */
  lemma HomeEnded(m: Machine, k: nat, i: nat, before: real)
    requires k < |m.slots| && i < |m.pages| && SlotSafe(m, k) && HomeSafe(m, i) && m.slots[k].busy
    requires m.slots[k].page == Some(i)
    requires m.c <= before && m.host <= before && m.d <= before
    ensures forall a | a in m.pages[i].pb || a in m.pages[i].s :: a.end <= before
  {
    hide Ordered;
    forall a | a in m.pages[i].pb || a in m.pages[i].s ensures a.end <= before { assert HomeCovers(m.pages[i], m, a); }
  }

  lemma ReleaseHome(m: Machine, k: nat, pb: bool, s: bool, w: Work, i: nat)
    requires RaceFree(m) && Allowed(m, SRelease(k, pb, s, w)) && m.slots[k].page == Some(i) && i < |m.pages|
    ensures HomeSafe(Release(m, k, pb, s, w), i)
  {
    assert SlotSafe(m, k) && HomeSafe(m, i);
    var start := Max(Max(m.d, m.host), m.c) + w.delay;
    HomeEnded(m, k, i, start);
    var b := Access(D2H, start, start + w.length, true);
    OrderedNext(m.pages[i].pb, b);
    OrderedNext(m.pages[i].s, b);
    hide Ordered;
  }

  lemma ReleaseSlot(m: Machine, k: nat, pb: bool, s: bool, w: Work)
    requires RaceFree(m) && Allowed(m, SRelease(k, pb, s, w))
    ensures SlotSafe(Release(m, k, pb, s, w), k)
  {
    assert SlotSafe(m, k);
    DrainSlot(m, m.slots[k], w);
    hide Ordered;
  }

  lemma ReleaseSafe(m: Machine, k: nat, pb: bool, s: bool, w: Work)
    requires RaceFree(m) && Allowed(m, SRelease(k, pb, s, w))
    ensures RaceFree(Release(m, k, pb, s, w))
  {
    var m' := Release(m, k, pb, s, w);
    assert SlotSafe(m, k);
    var i := m.slots[k].page.value;
    assert HomeSafe(m, i) && Later(m, m');
    ReleaseSlot(m, k, pb, s, w);
    ReleaseHome(m, k, pb, s, w, i);
    forall l: nat | l < |m.slots| ensures SlotSafe(m', l) {
      assert SlotSafe(m, l);
      if l != k { OtherSlot(m, m', l); }
    }
    forall j: nat | j < |m.pages| ensures HomeSafe(m', j) {
      assert HomeSafe(m, j);
      if j != i { OtherHome(m, m', j); }
    }
  }

  /** A D2H out of a slot that waited for the slot's compute is after everything there. */
  lemma DrainSlot(m: Machine, sl: SlotEv, w: Work)
    requires Ordered(sl.log) && (forall a | a in sl.log :: SlotCovers(sl, m, a)) && sl.busy && w.Valid()
    requires sl.ready <= m.c && sl.out <= m.c
    ensures var start := Max(Max(m.d, m.host), m.c) + w.delay;
      && Ordered(sl.log + [Access(D2H, start, start + w.length, false)])
      && forall a | a in sl.log :: a.end <= start
  {
    var start := Max(Max(m.d, m.host), m.c) + w.delay;
    var b := Access(D2H, start, start + w.length, false);
    forall a | a in sl.log ensures a.end <= b.start { assert SlotCovers(sl, m, a); }
    OrderedNext(sl.log, b);
  }

  lemma StepOnCpuSafe(m: Machine, k: nat, w: Work, step: Work)
    requires RaceFree(m) && Allowed(m, SStepOnCpu(k, w, step))
    ensures RaceFree(StepOnCpu(m, k, w, step))
  {
    var m' := StepOnCpu(m, k, w, step);
    assert SlotSafe(m, k) && Later(m, m');
    var i := m.slots[k].page.value;
    assert HomeSafe(m, i);
    StepSlot(m, k, w, step);
    StepHome(m, k, w, step, i);
    forall l: nat | l < |m.slots| ensures SlotSafe(m', l) {
      assert SlotSafe(m, l);
      if l != k { OtherSlot(m, m', l); }
    }
    forall j: nat | j < |m.pages| ensures HomeSafe(m', j) {
      assert HomeSafe(m, j);
      if j != i { OtherHome(m, m', j); }
    }
  }

  lemma StepSlot(m: Machine, k: nat, w: Work, step: Work)
    requires RaceFree(m) && Allowed(m, SStepOnCpu(k, w, step))
    ensures SlotSafe(StepOnCpu(m, k, w, step), k)
  {
    assert SlotSafe(m, k);
    DrainSlot(m, m.slots[k], w);
    hide Ordered;
  }

  lemma StepHome(m: Machine, k: nat, w: Work, step: Work, i: nat)
    requires RaceFree(m) && Allowed(m, SStepOnCpu(k, w, step)) && m.slots[k].page == Some(i) && i < |m.pages|
    ensures HomeSafe(StepOnCpu(m, k, w, step), i)
  {
    assert SlotSafe(m, k) && HomeSafe(m, i);
    var pg := m.pages[i];
    if pg.spans {
      var start := Max(Max(m.d, m.host), m.c) + w.delay;
      var b := Access(D2H, start, start + w.length, true);
      var steps := Max(Max(m.t, m.host), b.end) + step.delay;
      HomeEnded(m, k, i, start);
      HomeEnded(m, k, i, steps);
      hide RaceFree;
      OrderedNext(pg.pb, b);
      assert forall a | a in pg.pb + [b] :: a.end <= steps;
      OrderedNext(pg.pb + [b], Access(Steps, steps, steps + step.length, true));
      hide Ordered;
    } else {
      hide RaceFree, Ordered;
    }
  }

  lemma AdoptSafe(m: Machine, i: nat, w: Work)
    requires RaceFree(m) && Allowed(m, SAdopt(i, w))
    ensures RaceFree(Adopt(m, i, w))
  {
    var m' := Adopt(m, i, w);
    assert HomeSafe(m, i) && Later(m, m');
    assert HomeSafe(m', i);
    forall l: nat | l < |m.slots| ensures SlotSafe(m', l) {
      assert SlotSafe(m, l);
      OtherSlot(m, m', l);
    }
    forall j: nat | j < |m.pages| ensures HomeSafe(m', j) {
      assert HomeSafe(m, j);
      if j != i { OtherHome(m, m', j); }
    }
  }

  lemma EvictSafe(m: Machine, k: nat)
    requires RaceFree(m) && Allowed(m, SEvict(k))
    ensures RaceFree(Evict(m, k))
  {
    var m' := Evict(m, k);
    assert SlotSafe(m, k) && Later(m, m');
    forall l: nat | l < |m.slots| ensures SlotSafe(m', l) {
      assert SlotSafe(m, l);
      if l != k { OtherSlot(m, m', l); }
    }
    forall j: nat | j < |m.pages| ensures HomeSafe(m', j) {
      assert HomeSafe(m, j);
      if m.slots[k].page == Some(j) {
        forall a | a in m.pages[j].pb || a in m.pages[j].s ensures HomeCovers(m'.pages[j], m', a) {
          assert HomeCovers(m.pages[j], m, a);
        }
      } else {
        OtherHome(m, m', j);
      }
    }
  }

  lemma GrowSafe(m: Machine)
    requires RaceFree(m) && Allowed(m, SGrow)
    ensures RaceFree(Grow(m))
  {
    var m' := Grow(m);
    assert Later(m, m');
    forall j: nat | j < |m.pages| ensures HomeSafe(m', j) {
      assert HomeSafe(m, j);
      if m.pages[j].slot.Some? { assert SlotSafe(m, m.pages[j].slot.value); }
      forall a | a in m.pages[j].pb || a in m.pages[j].s ensures HomeCovers(m'.pages[j], m', a) {
        assert HomeCovers(m.pages[j], m, a);
      }
    }
  }

  lemma HostSafe(m: Machine, delay: real)
    requires RaceFree(m) && delay >= 0.0
    ensures RaceFree(m.(host := m.host + delay))
  {
    var m' := m.(host := m.host + delay);
    forall l: nat | l < |m.slots| ensures SlotSafe(m', l) {
      assert SlotSafe(m, l);
      OtherSlot(m, m', l);
    }
    forall j: nat | j < |m.pages| ensures HomeSafe(m', j) {
      assert HomeSafe(m, j);
      OtherHome(m, m', j);
    }
  }

  lemma TakeSafe(m: Machine, a: Step)
    requires RaceFree(m) && Allowed(m, a)
    ensures RaceFree(Take(m, a))
  {
    assert a.SHost? ==> a.delay >= 0.0;
    hide RaceFree, Allowed, PageIn, Acquire, ComputeOn, Release, StepOnCpu, Adopt, Evict, Grow;
    match a
    case SPageIn(i, k, pb, s, w) => PageInSafe(m, i, k, pb, s, w);
    case SAcquire(k) => AcquireSafe(m, k);
    case SCompute(k, w) => ComputeSafe(m, k, w);
    case SRelease(k, pb, s, w) => ReleaseSafe(m, k, pb, s, w);
    case SStepOnCpu(k, w, step) => StepOnCpuSafe(m, k, w, step);
    case SAdopt(i, w) => AdoptSafe(m, i, w);
    case SEvict(k) => EvictSafe(m, k);
    case SGrow => GrowSafe(m);
    case SHost(delay) => HostSafe(m, delay);
  }

  // ── what every step touches, and when ────────────────────────────────────────

  /** The log grew, and ends with an access of that kind: it takes as long as the operation does and is
      over at `end`, starts when one of the times it may wait for has come and the delay has passed, and
      everything it conflicts with has ended by then. */
  ghost predicate Touched(log: seq<Access>, log': seq<Access>, queue: Queue, write: bool, w: Work, end: real,
                          waits: set<real>) {
    && |log| < |log'| && log'[..|log|] == log
    && var b := log'[|log'| - 1];
       && b.queue == queue && b.write == write && b.end == end == b.start + w.length
       && b.start - w.delay in waits
       && forall x | 0 <= x < |log'| - 1 && (write || log'[x].write) :: log'[x].end <= b.start
  }

  /** Only slot `k` and the homes of slice `i` were touched. */
  ghost predicate NoOthers(m: Machine, m': Machine, k: Option<nat>, i: Option<nat>) {
    && |m'.slots| == |m.slots| && |m'.pages| == |m.pages|
    && (forall l: nat | l < |m.slots| && k != Some(l) :: m'.slots[l].log == m.slots[l].log)
    && forall j: nat | j < |m.pages| && i != Some(j) :: m'.pages[j].pb == m.pages[j].pb && m'.pages[j].s == m.pages[j].s
  }

  /** What a step does to memory and when, whatever computes it: a page-in writes the slot and reads the
      homes asked for; a computation writes the slot; a write-back reads the slot and writes the homes
      that changed; a CPU step's copy does the same and its step writes the home after the copy; an
      adoption writes the home of the state; new memory is given out once everything has ended. Nothing else
      is touched, and nothing waits for anything but its queue, the host, and the events named. */
  ghost predicate Touches(m: Machine, a: Step, m': Machine)
    requires Allowed(m, a)
  {
    match a
    case SPageIn(i, k, pb, s, w) => PageInTouches(m, i, k, pb, s, w, m')
    case SCompute(k, w) =>
      && NoOthers(m, m', Some(k), None)
      && Touched(m.slots[k].log, m'.slots[k].log, Compute, true, w, m'.c, {m.c, m.host})
    case SRelease(k, pb, s, w) =>
      if pb || s then ReleaseTouches(m, k, pb, s, w, m') else NoOthers(m, m', None, None)
    case SStepOnCpu(k, w, step) => StepTouches(m, k, w, step, m')
    case SAdopt(i, w) =>
      && NoOthers(m, m', None, Some(i)) && m'.pages[i].pb == m.pages[i].pb && m'.host == m'.c
      && Touched(m.pages[i].s, m'.pages[i].s, Compute, true, w, m'.c, {m.c, m.host})
    case SAcquire(k) =>
      NoOthers(m, m', None, None) && m'.c in {m.c, m.host, m.slots[k].ready, m.slots[k].out}
    case SEvict(_) => NoOthers(m, m', None, None)
    case SHost(_) => NoOthers(m, m', None, None)
    case SGrow =>
      && |m'.slots| == |m.slots| && |m'.pages| == |m.pages|
      && m.c <= m'.host && m.h <= m'.host && m.d <= m'.host && m.t <= m'.host
      && (forall l: nat | l < |m.slots| :: m'.slots[l].log == [])
      && forall j: nat | j < |m.pages| :: m'.pages[j].pb == m.pages[j].pb && m'.pages[j].s == m.pages[j].s
  }

  /** The queue's own last operation, where the host has got to, the events a page-in names, and in a slot
      just allocated the compute already queued. */
  ghost function PageInTimes(m: Machine, i: nat, k: nat): set<real>
    requires i < |m.pages| && k < |m.slots|
  {
    var sl, pg := m.slots[k], m.pages[i];
    var step := if pg.pending.Some? then {pg.pending.value} else {};
    {m.h, m.host, sl.free, sl.out, pg.ev} + step + if sl.blank then {m.c} else {}
  }

  ghost predicate PageInTouches(m: Machine, i: nat, k: nat, pb: bool, s: bool, w: Work, m': Machine)
    requires i < |m.pages| && k < |m.slots|
  {
    var sl, pg, waits := m.slots[k], m.pages[i], PageInTimes(m, i, k);
    && NoOthers(m, m', Some(k), Some(i))
    && Touched(sl.log, m'.slots[k].log, H2D, true, w, m'.h, waits)
    && (if pb then Touched(pg.pb, m'.pages[i].pb, H2D, false, w, m'.h, waits) else m'.pages[i].pb == pg.pb)
    && (if s then Touched(pg.s, m'.pages[i].s, H2D, false, w, m'.h, waits) else m'.pages[i].s == pg.s)
  }

  ghost predicate ReleaseTouches(m: Machine, k: nat, pb: bool, s: bool, w: Work, m': Machine)
    requires k < |m.slots|
  {
    var sl := m.slots[k];
    && sl.page.Some? && sl.page.value < |m.pages|
    && var i, waits := sl.page.value, {m.d, m.host, m.c};
       var pg := m.pages[i];
       && NoOthers(m, m', Some(k), Some(i))
       && Touched(sl.log, m'.slots[k].log, D2H, false, w, m'.d, waits)
       && (if pb then Touched(pg.pb, m'.pages[i].pb, D2H, true, w, m'.d, waits) else m'.pages[i].pb == pg.pb)
       && (if s then Touched(pg.s, m'.pages[i].s, D2H, true, w, m'.d, waits) else m'.pages[i].s == pg.s)
  }

  ghost predicate StepTouches(m: Machine, k: nat, w: Work, step: Work, m': Machine)
    requires k < |m.slots|
  {
    var sl := m.slots[k];
    && sl.page.Some? && sl.page.value < |m.pages|
    && var i, waits := sl.page.value, {m.d, m.host, m.c};
       var pg := m.pages[i];
       if !pg.spans then NoOthers(m, m', None, None)
       else
         && NoOthers(m, m', Some(k), Some(i)) && m'.pages[i].s == pg.s
         && Touched(sl.log, m'.slots[k].log, D2H, false, w, m'.d, waits)
         && |m'.pages[i].pb| == |pg.pb| + 2
         && var copied := m'.pages[i].pb[..|pg.pb| + 1];
            && Touched(pg.pb, copied, D2H, true, w, m'.d, waits)
            && Touched(copied, m'.pages[i].pb, Steps, true, step, m'.t, {m.t, m.host, m'.d})
  }

  /** One more access in an ordered log. */
  lemma Appended(log: seq<Access>, b: Access, w: Work, waits: set<real>)
    requires Ordered(log + [b]) && b.end == b.start + w.length && b.start - w.delay in waits
    ensures Touched(log, log + [b], b.queue, b.write, w, b.end, waits)
  {
  }

  lemma PageInStarts(m: Machine, i: nat, k: nat)
    requires i < |m.pages| && k < |m.slots|
    ensures PageInWaits(m, i, k) in PageInTimes(m, i, k)
  {
  }

  lemma TouchesPageInSlot(m: Machine, i: nat, k: nat, pb: bool, s: bool, w: Work)
    requires RaceFree(m) && Allowed(m, SPageIn(i, k, pb, s, w))
    ensures var m' := PageIn(m, i, k, pb, s, w);
      Touched(m.slots[k].log, m'.slots[k].log, H2D, true, w, m'.h, PageInTimes(m, i, k))
  {
    PageInStarts(m, i, k);
    PageInSlot(m, i, k, pb, s, w);
    hide RaceFree, PageInWaits, PageInTimes, HostAfterWait, SlotCovers;
    var start, sl := PageInWaits(m, i, k) + w.delay, m.slots[k];
    var b := Access(H2D, start, start + w.length, true);
    var log := if sl.blank then sl.log + [Access(Compute, m.c, m.c, true)] else sl.log;
    assert start - w.delay == PageInWaits(m, i, k);
    Appended(log, b, w, PageInTimes(m, i, k));
    hide Ordered;
    assert (log + [b])[..|sl.log|] == sl.log;
  }

  lemma TouchesPageInHome(m: Machine, i: nat, k: nat, pb: bool, s: bool, w: Work)
    requires RaceFree(m) && Allowed(m, SPageIn(i, k, pb, s, w))
    ensures var m' := PageIn(m, i, k, pb, s, w);
      && (pb ==> Touched(m.pages[i].pb, m'.pages[i].pb, H2D, false, w, m'.h, PageInTimes(m, i, k)))
      && (s ==> Touched(m.pages[i].s, m'.pages[i].s, H2D, false, w, m'.h, PageInTimes(m, i, k)))
  {
    PageInStarts(m, i, k);
    PageInHome(m, i, k, pb, s, w);
    hide RaceFree, PageInWaits, PageInTimes, HostAfterWait, HomeCovers, Touched;
    var start := PageInWaits(m, i, k) + w.delay;
    var r := Access(H2D, start, start + w.length, false);
    assert start - w.delay == PageInWaits(m, i, k);
    if pb { Appended(m.pages[i].pb, r, w, PageInTimes(m, i, k)); }
    if s { Appended(m.pages[i].s, r, w, PageInTimes(m, i, k)); }
    hide Ordered;
  }

  lemma TouchesPageIn(m: Machine, i: nat, k: nat, pb: bool, s: bool, w: Work)
    requires RaceFree(m) && Allowed(m, SPageIn(i, k, pb, s, w))
    ensures PageInTouches(m, i, k, pb, s, w, PageIn(m, i, k, pb, s, w))
  {
    TouchesPageInSlot(m, i, k, pb, s, w);
    TouchesPageInHome(m, i, k, pb, s, w);
    hide RaceFree, PageInWaits, PageInTimes, HostAfterWait, Touched;
  }

  lemma TouchesCompute(m: Machine, k: nat, w: Work)
    requires RaceFree(m) && Allowed(m, SCompute(k, w))
    ensures Touches(m, SCompute(k, w), ComputeOn(m, k, w))
  {
    ComputeSafe(m, k, w);
    var m' := ComputeOn(m, k, w);
    assert SlotSafe(m', k);
    var start := Max(m.c, m.host) + w.delay;
    Appended(m.slots[k].log, Access(Compute, start, start + w.length, true), w, {m.c, m.host});
    hide RaceFree, Touched;
  }

  lemma TouchesReleaseSlot(m: Machine, k: nat, pb: bool, s: bool, w: Work)
    requires RaceFree(m) && Allowed(m, SRelease(k, pb, s, w)) && (pb || s)
    requires m.slots[k].page.Some? && m.slots[k].page.value < |m.pages|
    ensures var m' := Release(m, k, pb, s, w);
      Touched(m.slots[k].log, m'.slots[k].log, D2H, false, w, m'.d, {m.d, m.host, m.c})
  {
    ReleaseSlot(m, k, pb, s, w);
    hide RaceFree, SlotCovers, Touched;
    var start := Max(Max(m.d, m.host), m.c) + w.delay;
    Appended(m.slots[k].log, Access(D2H, start, start + w.length, false), w, {m.d, m.host, m.c});
    hide Ordered;
  }

  lemma TouchesReleaseHome(m: Machine, k: nat, pb: bool, s: bool, w: Work, i: nat)
    requires RaceFree(m) && Allowed(m, SRelease(k, pb, s, w)) && m.slots[k].page == Some(i) && i < |m.pages|
    ensures var m' := Release(m, k, pb, s, w);
      && (pb ==> Touched(m.pages[i].pb, m'.pages[i].pb, D2H, true, w, m'.d, {m.d, m.host, m.c}))
      && (s ==> Touched(m.pages[i].s, m'.pages[i].s, D2H, true, w, m'.d, {m.d, m.host, m.c}))
  {
    ReleaseHome(m, k, pb, s, w, i);
    hide RaceFree, HomeCovers, Touched;
    var start := Max(Max(m.d, m.host), m.c) + w.delay;
    var b := Access(D2H, start, start + w.length, true);
    if pb { Appended(m.pages[i].pb, b, w, {m.d, m.host, m.c}); }
    if s { Appended(m.pages[i].s, b, w, {m.d, m.host, m.c}); }
    hide Ordered;
  }

  lemma TouchesRelease(m: Machine, k: nat, pb: bool, s: bool, w: Work)
    requires RaceFree(m) && Allowed(m, SRelease(k, pb, s, w))
    ensures Touches(m, SRelease(k, pb, s, w), Release(m, k, pb, s, w))
  {
    assert SlotSafe(m, k);
    hide RaceFree, SlotSafe, Touched, Max;
    if pb || s {
      TouchesReleaseSlot(m, k, pb, s, w);
      TouchesReleaseHome(m, k, pb, s, w, m.slots[k].page.value);
    }
  }

  lemma TouchesStep(m: Machine, k: nat, w: Work, step: Work)
    requires RaceFree(m) && Allowed(m, SStepOnCpu(k, w, step))
    ensures StepTouches(m, k, w, step, StepOnCpu(m, k, w, step))
  {
    assert SlotSafe(m, k);
    var i := m.slots[k].page.value;
    if m.pages[i].spans {
      var pg := m.pages[i];
      StepSlot(m, k, w, step);
      StepHome(m, k, w, step, i);
      var start, waits := Max(Max(m.d, m.host), m.c) + w.delay, {m.d, m.host, m.c};
      var r, b := Access(D2H, start, start + w.length, false), Access(D2H, start, start + w.length, true);
      var steps := Max(Max(m.t, m.host), b.end) + step.delay;
      var e := Access(Steps, steps, steps + step.length, true);
      Appended(m.slots[k].log, r, w, waits);
      assert (pg.pb + [b] + [e])[..|pg.pb| + 1] == pg.pb + [b];
      OrderedInit(pg.pb + [b], e);
      Appended(pg.pb, b, w, waits);
      Appended(pg.pb + [b], e, step, {m.t, m.host, b.end});
      hide RaceFree, Touched, SlotSafe, HomeSafe;
    }
  }

  lemma OrderedInit(log: seq<Access>, b: Access)
    requires Ordered(log + [b])
    ensures Ordered(log)
  {
    assert forall x | 0 <= x < |log| :: (log + [b])[x] == log[x];
  }

  lemma TouchesAdopt(m: Machine, i: nat, w: Work)
    requires RaceFree(m) && Allowed(m, SAdopt(i, w))
    ensures Touches(m, SAdopt(i, w), Adopt(m, i, w))
  {
    var start := Max(m.c, m.host) + w.delay;
    Appended(m.pages[i].s, Access(Compute, start, start + w.length, true), w, {m.c, m.host});
    hide RaceFree, Touched;
  }

  /** Every step of a race-free pager touches what it should, when it may. */
  lemma TakeTouches(m: Machine, a: Step)
    requires RaceFree(m) && Allowed(m, a)
    ensures Touches(m, a, Take(m, a))
  {
    match a
    case SPageIn(i, k, pb, s, w) => TouchesPageIn(m, i, k, pb, s, w);
    case SCompute(k, w) => TouchesCompute(m, k, w);
    case SRelease(k, pb, s, w) => TouchesRelease(m, k, pb, s, w);
    case SStepOnCpu(k, w, step) => TouchesStep(m, k, w, step);
    case SAdopt(i, w) => TouchesAdopt(m, i, w);
    case _ =>
  }

  // ── runs ─────────────────────────────────────────────────────────────────────

  ghost predicate IsRun(m: Machine, steps: seq<Step>)
    decreases |steps|
  {
    steps == [] || (Allowed(m, steps[0]) && IsRun(Take(m, steps[0]), steps[1..]))
  }

  ghost function EndOf(m: Machine, steps: seq<Step>): Machine
    requires IsRun(m, steps)
    decreases |steps|
  {
    if steps == [] then m else EndOf(Take(m, steps[0]), steps[1..])
  }

  /** The slots just allocated, nothing issued yet. */
  function Initial(nSlots: nat, spans: seq<bool>): Machine {
    Machine(0.0, 0.0, 0.0, 0.0, 0.0, seq(nSlots, k => SlotEv([], 0.0, 0.0, 0.0, true, false, None)),
            seq(|spans|, i requires 0 <= i < |spans| => PageEv([], [], 0.0, None, None, spans[i])))
  }

  lemma {:induction false} RunsAreSafe(m: Machine, steps: seq<Step>)
    requires RaceFree(m) && IsRun(m, steps)
    ensures RaceFree(EndOf(m, steps))
    decreases |steps|
  {
    hide RaceFree, Allowed, Take;
    if steps != [] {
      TakeSafe(m, steps[0]);
      RunsAreSafe(Take(m, steps[0]), steps[1..]);
    }
  }

  /** In every run of the pager, however long its operations take and whatever holds them up, any two
      conflicting accesses to a slot or to a home are ordered; and every next step touches what it
      should, when it may. */
  lemma NoRaces(nSlots: nat, spans: seq<bool>, steps: seq<Step>)
    requires IsRun(Initial(nSlots, spans), steps)
    ensures var m := EndOf(Initial(nSlots, spans), steps);
      && (forall k: nat | k < |m.slots| :: Ordered(m.slots[k].log))
      && (forall i: nat | i < |m.pages| :: Ordered(m.pages[i].pb) && Ordered(m.pages[i].s))
      && (forall a: Step | Allowed(m, a) :: Touches(m, a, Take(m, a)))
  {
    var m0 := Initial(nSlots, spans);
    assert RaceFree(m0);
    RunsAreSafe(m0, steps);
    var m := EndOf(m0, steps);
    forall k: nat | k < |m.slots| ensures Ordered(m.slots[k].log) { assert SlotSafe(m, k); }
    forall i: nat | i < |m.pages| ensures Ordered(m.pages[i].pb) && Ordered(m.pages[i].s) { assert HomeSafe(m, i); }
    hide RaceFree, Allowed, Touches, Take;
    forall a: Step | Allowed(m, a) ensures Touches(m, a, Take(m, a)) { TakeTouches(m, a); }
  }
}
