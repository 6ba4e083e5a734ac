/** Where a slice's tensors sit in a region, where the regions sit in a slot, in the staging buffer
    and in a file, in bytes. */
module PagerLayout {
  import opened Arithmetic

  const ALIGN: nat := 256
  const PAGE: nat := 4096

  datatype Entry = Entry(offset: nat, nbytes: nat)

  /** Entries are aligned, inside the region, and one after the other. */
  ghost predicate Packed(entries: seq<Entry>, nbytes: nat) {
    && nbytes % ALIGN == 0
    && (forall i | 0 <= i < |entries| ::
          entries[i].offset % ALIGN == 0 && entries[i].offset + entries[i].nbytes <= nbytes)
    && (forall i, j | 0 <= i < j < |entries| :: entries[i].offset + entries[i].nbytes <= entries[j].offset)
  }

  /** `_Layout`. */
  class Layout {
    var entries: seq<Entry>
    var nbytes: nat

    ghost predicate Valid()
      reads this
    {
      Packed(entries, nbytes)
    }

    constructor ()
      ensures Valid() && entries == [] && nbytes == 0
    {
      entries, nbytes := [], 0;
    }

    /** `_Layout.add`: the new entry starts where the region ended; the others stay. */
    method Add(size: nat) returns (e: Entry)
      requires Valid()
      modifies this
      ensures Valid() && entries == old(entries) + [e]
      ensures e == Entry(old(nbytes), size) && nbytes < e.offset + e.nbytes + ALIGN
    {
      RoundsUp(nbytes + size, ALIGN);
      e := Entry(nbytes, size);
      entries := entries + [e];
      nbytes := RoundUp(nbytes + size, ALIGN);
    }
  }

  /** The bytes `lo .. hi`. */
  datatype Span = Span(lo: nat, hi: nat)

  predicate Inside(a: Span, size: nat) {
    a.lo <= a.hi <= size
  }

  predicate Apart(a: Span, b: Span) {
    a.hi <= b.lo || b.hi <= a.lo
  }

  // ── a slot: [pb | g | s] ─────────────────────────────────────────────────────

  datatype Slice = Slice(pb: nat, bufStart: nat, g: nat, s: nat)

  function InSlotPb(x: Slice): Span { Span(0, x.pb) }

  function InSlotG(x: Slice): Span { Span(x.pb, x.pb + x.g) }

  function InSlotS(x: Slice): Span { Span(x.pb + x.g, x.pb + x.g + x.s) }

  /** An entry of a region, as bytes of the slot. */
  function InSlotEntry(base: nat, e: Entry): Span { Span(base + e.offset, base + e.offset + e.nbytes) }

  /** A slice that fits has its three regions in its slot, apart from each other. */
  lemma RegionsApart(x: Slice, cap: nat)
    requires x.pb + x.g + x.s <= cap
    ensures Inside(InSlotPb(x), cap) && Inside(InSlotG(x), cap) && Inside(InSlotS(x), cap)
    ensures Apart(InSlotPb(x), InSlotG(x)) && Apart(InSlotG(x), InSlotS(x)) && Apart(InSlotPb(x), InSlotS(x))
  {
  }

  /** The entries of a region that starts at `base`, as bytes of the slot. */
  function InSlotEntries(base: nat, es: seq<Entry>): (spans: seq<Span>)
    ensures |spans| == |es| && forall i | 0 <= i < |es| :: spans[i] == InSlotEntry(base, es[i])
  {
    seq(|es|, i requires 0 <= i < |es| => InSlotEntry(base, es[i]))
  }

  /** All tensors of a slice: parameters and buffers, gradients, optimizer state. */
  function Tensors(x: Slice, pb: seq<Entry>, g: seq<Entry>, s: seq<Entry>): (spans: seq<Span>)
    ensures |spans| == |pb| + |g| + |s|
  {
    InSlotEntries(0, pb) + InSlotEntries(x.pb, g) + InSlotEntries(x.pb + x.g, s)
  }

  lemma AlignedSum(a: nat, b: nat)
    requires a % ALIGN == 0 && b % ALIGN == 0
    ensures (a + b) % ALIGN == 0
  {
  }

  /** A tensor of any region is aligned in the slot, and inside the bytes of its region. */
  lemma TensorPlaced(x: Slice, pb: seq<Entry>, g: seq<Entry>, s: seq<Entry>, a: nat)
    requires Packed(pb, x.pb) && Packed(g, x.g) && Packed(s, x.s) && a < |pb| + |g| + |s|
    ensures var t := Tensors(x, pb, g, s)[a];
      && t.lo % ALIGN == 0
      && if a < |pb| then t.hi <= x.pb
         else if a < |pb| + |g| then x.pb <= t.lo && t.hi <= x.pb + x.g
         else x.pb + x.g <= t.lo && t.hi <= x.pb + x.g + x.s
  {
    AlignedSum(x.pb, x.g);
    if a < |pb| {
      assert pb[a].offset + pb[a].nbytes <= x.pb;
    } else if a < |pb| + |g| {
      assert g[a - |pb|].offset % ALIGN == 0;
      AlignedSum(x.pb, g[a - |pb|].offset);
    } else {
      assert s[a - |pb| - |g|].offset % ALIGN == 0;
      AlignedSum(x.pb + x.g, s[a - |pb| - |g|].offset);
    }
  }

  /** Any two tensors of a slice, whichever regions they are in, are apart in its slot: one ends
      before the next begins. All are aligned, and inside the slice's bytes. */
  lemma TensorsApart(x: Slice, pb: seq<Entry>, g: seq<Entry>, s: seq<Entry>, a: nat, b: nat)
    requires Packed(pb, x.pb) && Packed(g, x.g) && Packed(s, x.s) && a < b < |pb| + |g| + |s|
    ensures var ts := Tensors(x, pb, g, s);
      && ts[a].hi <= ts[b].lo && Apart(ts[a], ts[b]) && ts[a].lo % ALIGN == 0 && ts[b].lo % ALIGN == 0
      && ts[b].hi <= x.pb + x.g + x.s
  {
    TensorPlaced(x, pb, g, s, a);
    TensorPlaced(x, pb, g, s, b);
    if b < |pb| {
      assert pb[a].offset + pb[a].nbytes <= pb[b].offset;
    } else if |pb| <= a && b < |pb| + |g| {
      assert g[a - |pb|].offset + g[a - |pb|].nbytes <= g[b - |pb|].offset;
    } else if |pb| + |g| <= a {
      assert s[a - |pb| - |g|].offset + s[a - |pb| - |g|].nbytes <= s[b - |pb| - |g|].offset;
    }
  }

  // ── disk transfers ───────────────────────────────────────────────────────────

  /** The size of the file that holds a region of `n` bytes. */
  function FileSize(n: nat): nat {
    RoundUp(if n > 1 then n else 1, PAGE)
  }

  /** `_disk_read` of a region of `n` bytes that starts at `base` in its slot: the file bytes read,
      and where in the staging buffer they go. */
  function ReadFrom(n: nat): Span {
    Span(0, RoundUp(n, PAGE))
  }

  function ReadTo(base: nat, n: nat): Span {
    Span(RoundUp(base, PAGE), RoundUp(base, PAGE) + RoundUp(n, PAGE))
  }

  /** `_disk_write` of the bytes `a .. b` of a region of `n` bytes: the file bytes written, the slot
      bytes they are taken from, and the staging bytes in between. */
  function WriteTo(n: nat, a: nat, b: nat): Span {
    Span(RoundDown(a, PAGE), if RoundUp(b, PAGE) < FileSize(n) then RoundUp(b, PAGE) else FileSize(n))
  }

  function WriteFrom(base: nat, n: nat, a: nat, b: nat): Span {
    Span(base + WriteTo(n, a, b).lo, base + WriteTo(n, a, b).hi)
  }

  function WriteVia(base: nat, n: nat, a: nat, b: nat): Span {
    Span(RoundUp(base, PAGE) + WriteTo(n, a, b).lo, RoundUp(base, PAGE) + WriteTo(n, a, b).hi)
  }

  /** A read stays inside the file and inside a staging buffer of `cap` and two pages, and takes
      every byte of the region. */
  lemma ReadFits(base: nat, n: nat, cap: nat)
    requires base + n <= cap
    ensures Inside(ReadFrom(n), FileSize(n)) && Inside(ReadTo(base, n), cap + 2 * PAGE) && n <= ReadFrom(n).hi
    ensures ReadTo(base, n).lo % PAGE == 0 && ReadFrom(n).hi % PAGE == 0
  {
    RoundsUp(base, PAGE);
    RoundsUp(n, PAGE);
    RoundUpMono(n, if n > 1 then n else 1);
  }

  lemma RoundUpMono(n: nat, m: nat)
    requires n <= m
    ensures RoundUp(n, PAGE) <= RoundUp(m, PAGE)
  {
  }

  /** A write covers what changed, is made of whole pages of the file, and stays inside the file,
      inside a slot buffer of `cap` and one page, and inside the staging buffer. */
  lemma WriteFits(base: nat, n: nat, a: nat, b: nat, cap: nat)
    requires base + n <= cap && a < b <= n
    ensures Inside(WriteTo(n, a, b), FileSize(n)) && WriteTo(n, a, b).lo <= a && b <= WriteTo(n, a, b).hi
    ensures WriteTo(n, a, b).lo % PAGE == 0 && WriteTo(n, a, b).hi % PAGE == 0
    ensures Inside(WriteFrom(base, n, a, b), cap + PAGE) && Inside(WriteVia(base, n, a, b), cap + 2 * PAGE)
  {
    RoundsUp(base, PAGE);
    RoundsUp(b, PAGE);
    RoundsDown(a, PAGE);
    RoundsUp(n, PAGE);
    RoundUpMono(b, n);
  }

  /** What is staged of a slice's parameters and buffers never overlaps what is staged of its
      optimizer state, for reads and for writes. */
  lemma StagedApart(x: Slice, a: nat, b: nat, a': nat, b': nat)
    requires a < b <= x.pb && a' < b' <= x.s
    ensures Apart(ReadTo(0, x.pb), ReadTo(x.pb + x.g, x.s))
    ensures Apart(WriteVia(0, x.pb, a, b), WriteVia(x.pb + x.g, x.s, a', b'))
  {
    RoundUpMono(x.pb, x.pb + x.g);
    RoundUpMono(0, x.pb);
    StagedWrites(x, a, b, a');
  }

  lemma StagedWrites(x: Slice, a: nat, b: nat, a': nat)
    requires a < b <= x.pb
    ensures WriteVia(0, x.pb, a, b).hi <= RoundUp(x.pb + x.g, PAGE) + RoundDown(a', PAGE)
  {
    RoundUpMono(b, x.pb);
    RoundUpMono(x.pb, x.pb + x.g);
    RoundsUp(0, PAGE);
    RoundsDown(a', PAGE);
  }

  /** What a write takes from the slot besides the region itself lies past the region's end in the
      file too: the padding of its last page. */
  lemma OnlyPaddingExtra(n: nat, a: nat, b: nat, at: nat)
    requires a < b <= n && WriteTo(n, a, b).lo <= at < WriteTo(n, a, b).hi
    ensures at < n || RoundDown(at, PAGE) < n <= at
  {
    RoundsUp(n, PAGE);
    RoundsUp(b, PAGE);
    RoundsDown(at, PAGE);
    RoundUpMono(b, n);
    if at >= n { LastPage(n, at); }
  }

  lemma LastPage(n: nat, at: nat)
    requires n <= at < RoundUp(n, PAGE)
    ensures RoundDown(at, PAGE) < n
  {
    RoundsUp(n, PAGE);
    RoundsDown(at, PAGE);
  }
}
