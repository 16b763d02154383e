/** The page tables the loader leaves, os-elephant/boot/loader.S:243-289. */
module SetupPage {
  import opened Options
  import opened Paging

  // The first page table; the 254 tables of entries 769 to 1022 follow it.
  const FIRST_TABLE: nat := 0x101000
  const LOW_PAGES: nat := 256
  const KERNEL_TABLES: nat := 254

  // The same as word numbers.
  const DIR: nat := PAGE_DIR_TABLE_POS / 4
  const FIRST: nat := FIRST_TABLE / 4

  /** The words of the directory. */
  function DirWord(i: int): nat {
    if i == 0 || i == 768 then FIRST_TABLE + ATTRS
    else if i == 1023 then PAGE_DIR_TABLE_POS + ATTRS
    else if 769 <= i < 1023 then FIRST_TABLE + 0x1000 * (i - 768) + ATTRS
    else 0
  }

  ghost predicate DirSetUp(p: seq<nat>) {
    PAGE_DIR_TABLE_POS / 4 + 1024 <= |p| &&
    forall k :: DIR <= k < DIR + 1024 ==> p[k] == DirWord(k - DIR)
  }

  ghost predicate LowSetUp(p: seq<nat>) {
    FIRST_TABLE / 4 + LOW_PAGES <= |p| &&
    forall k :: FIRST <= k < FIRST + LOW_PAGES ==> p[k] == (k - FIRST) * PG_SIZE + ATTRS
  }

  /** The words setup_page writes. */
  predicate Written(k: int) {
    DIR <= k < DIR + 1024 || FIRST <= k < FIRST + LOW_PAGES
  }

  /** .clear_page_dir, on words. */
  method ClearPageDir(m: array<nat>)
    requires m.Length >= 0x20_0000 / 4
    modifies m
    ensures forall k :: 0 <= k < m.Length ==> m[k] == if DIR <= k < DIR + 1024 then 0 else old(m[k])
  {
    var esi := 0;
    while esi < 1024
      invariant esi <= 1024
      invariant forall k :: 0 <= k < m.Length ==> m[k] == if DIR <= k < DIR + esi then 0 else old(m[k])
    {
      m[DIR + esi] := 0;
      esi := esi + 1;
    }
  }

  /** .create_pte, from the first table at `ebx`. */
  method CreatePte(m: array<nat>, ebx: nat)
    requires m.Length >= 0x20_0000 / 4 && ebx == FIRST_TABLE
    modifies m
    ensures LowSetUp(m[..])
    ensures forall k :: 0 <= k < m.Length && !(FIRST <= k < FIRST + LOW_PAGES) ==> m[k] == old(m[k])
  {
    var esi, edx := 0, ATTRS;
    while esi < LOW_PAGES
      invariant esi <= LOW_PAGES && edx == esi * PG_SIZE + ATTRS
      invariant forall k :: FIRST <= k < FIRST + esi ==> m[k] == (k - FIRST) * PG_SIZE + ATTRS
      invariant forall k :: 0 <= k < m.Length && !(FIRST <= k < FIRST + LOW_PAGES) ==> m[k] == old(m[k])
    {
      m[ebx / 4 + esi] := edx;
      edx := edx + 4096;
      esi := esi + 1;
    }
  }

  /** .create_kernel_pde. */
  method CreateKernelPde(m: array<nat>)
    requires m.Length >= 0x20_0000 / 4
    modifies m
    ensures forall k :: 0 <= k < m.Length ==>
              m[k] == if DIR + 769 <= k < DIR + 1023 then DirWord(k - DIR) else old(m[k])
  {
    var eax := PAGE_DIR_TABLE_POS + 0x2000 + ATTRS;
    var esi, ecx := 769, KERNEL_TABLES;
    while ecx > 0
      invariant esi + ecx == 1023 && ecx >= 0 && eax == FIRST_TABLE + 0x1000 * (esi - 768) + ATTRS
      invariant forall k :: 0 <= k < m.Length ==>
                  m[k] == if DIR + 769 <= k < DIR + esi then DirWord(k - DIR) else old(m[k])
    {
      m[DIR + esi] := eax;
      esi := esi + 1;
      eax := eax + 0x1000;
      ecx := ecx - 1;
    }
  }

  /** setup_page. */
  method Setup(m: array<nat>)
    requires m.Length >= 0x20_0000 / 4
    modifies m
    ensures DirSetUp(m[..]) && LowSetUp(m[..])
    ensures forall k :: 0 <= k < m.Length && !Written(k) ==> m[k] == old(m[k])
  {
    ClearPageDir(m);
    var eax := PAGE_DIR_TABLE_POS + 0x1000;
    var ebx := eax;
    eax := eax + ATTRS;
    m[DIR] := eax;
    m[DIR + 768] := eax;
    eax := eax - 0x1000;
    m[DIR + 1023] := eax;
    CreatePte(m, ebx);
    CreateKernelPde(m);
  }

  // ----- What that means -----

  lemma DirEntries(p: seq<nat>)
    requires DirSetUp(p)
    ensures forall i :: 0 <= i < 1024 ==> DirEntry(p, i) == DirWord(i)
  {
    forall i | 0 <= i < 1024
      ensures DirEntry(p, i) == DirWord(i)
    {
      assert (PAGE_DIR_TABLE_POS + 4 * i) / 4 == DIR + i;
    }
  }

  lemma DirFrames(i: nat)
    requires i < 1024
    ensures Present(DirWord(i)) <==> i == 0 || 768 <= i
    ensures 768 <= i < 1023 ==> Frame(DirWord(i)) == FIRST_TABLE + 0x1000 * (i - 768)
    ensures i == 0 ==> Frame(DirWord(i)) == FIRST_TABLE
    ensures i == 1023 ==> Frame(DirWord(i)) == PAGE_DIR_TABLE_POS
  {
  }

  /** The recursive entry is in place and every table lies between 1 MB and 2 MB. */
  lemma SetUpTables(p: seq<nat>)
    requires DirSetUp(p) && |p| >= 0x20_0000 / 4
    ensures TablesOk(p)
  {
    DirEntries(p);
    forall i | 0 <= i < 1024
      ensures Present(DirWord(i)) && i != 1023 ==>
                Frame(DirWord(i)) != PAGE_DIR_TABLE_POS && Frame(DirWord(i)) / 4 + 1024 <= |p|
    {
      DirFrames(i);
    }
    DirFrames(1023);
  }

  lemma LowPage(p: seq<nat>, a: nat, base: nat)
    requires DirSetUp(p) && LowSetUp(p) && a < 0x10_0000 && (base == 0 || base == 768)
    ensures Translate(p, base * 0x40_0000 + a) == Some(a)
  {
    DirEntries(p);
    DirFrames(base);
    var v, k := base * 0x40_0000 + a, a / PG_SIZE;
    assert PdeIdx(v) == base;
    assert PteIdx(v) == k && v % PG_SIZE == a % PG_SIZE;
    TableWord(DirWord(base), k);
    assert PteAddr(p, v) / 4 == FIRST + k;
    assert p[FIRST + k] == k * PG_SIZE + ATTRS;
    AttrsFrame(k * PG_SIZE);
  }

  /** The first megabyte is mapped to itself, and once more from 3 GB on. */
  lemma LowMemoryMapped(p: seq<nat>, a: nat)
    requires DirSetUp(p) && LowSetUp(p) && a < 0x10_0000
    ensures Translate(p, a) == Some(a) && Translate(p, 0xc000_0000 + a) == Some(a)
  {
    LowPage(p, a, 0);
    LowPage(p, a, 768);
  }

  // ----- The kernel heap -----

  const K_HEAP_START: nat := 0xc010_0000
  /** Pages from the start of the kernel heap to the window of the page tables. */
  const HEAP_PAGES: nat := 255 * 1024 - 256

  function HeapPage(k: nat): nat {
    K_HEAP_START + PG_SIZE * k
  }

  /** The word that maps heap page `k`: the tables lie one behind the other. */
  function HeapWord(k: nat): nat {
    FIRST_TABLE / 4 + LOW_PAGES + k
  }

  lemma HeapIndices(k: nat, o: nat)
    requires k < HEAP_PAGES && o < PG_SIZE
    ensures var v := HeapPage(k) + o;
            && v < ADDRESSES && v / PG_SIZE == K_HEAP_START / PG_SIZE + k && v % PG_SIZE == o
            && PdeIdx(v) == 768 + (256 + k) / 1024 && PteIdx(v) == (256 + k) % 1024
  {
    var v := HeapPage(k) + o;
    assert v / PG_SIZE == 0xc0100 + k;
    assert PdeIdx(v) == v / PG_SIZE / 1024;
  }

  /** Every heap page has its directory entry, and where its table entry is. */
  lemma HeapEntry(p: seq<nat>, k: nat, o: nat)
    requires DirSetUp(p) && k < HEAP_PAGES && o < PG_SIZE
    ensures var v := HeapPage(k) + o;
            && v < ADDRESSES && 768 <= PdeIdx(v) < 1023 && Present(Pde(p, v))
            && PteAddr(p, v) == 4 * HeapWord(k) && v / PG_SIZE == K_HEAP_START / PG_SIZE + k && v % PG_SIZE == o
  {
    HeapIndices(k, o);
    DirEntries(p);
    DirFrames(PdeIdx(HeapPage(k) + o));
  }

  /** The first `used` of `total` heap pages are mapped to the frames from `start` on. The entries
      behind them are free up to heap page `stale`, whose entry is in use if it is one of them. */
  ghost predicate HeapMapped(p: seq<nat>, used: nat, stale: nat, total: nat, start: nat) {
    && used <= stale <= total <= HEAP_PAGES && HeapWord(total) <= |p|
    && (forall k :: HeapWord(0) <= k < HeapWord(used) ==> p[k] == start + PG_SIZE * (k - HeapWord(0)) + ATTRS)
    && (forall k :: HeapWord(used) <= k < HeapWord(stale) ==> !Present(p[k]))
    && (stale < total ==> Present(p[HeapWord(stale)]))
  }

  /** Heap page `k` is translated to frame `k` once it is used, and not before. */
  lemma HeapTranslates(p: seq<nat>, used: nat, stale: nat, total: nat, start: nat, k: nat, o: nat)
    requires DirSetUp(p) && HeapMapped(p, used, stale, total, start) && start % PG_SIZE == 0
    requires k < stale && o < PG_SIZE
    ensures Translate(p, HeapPage(k) + o) == if k < used then Some(start + PG_SIZE * k + o) else None
  {
    HeapEntry(p, k, o);
    assert Word(p, 4 * HeapWord(k)) == p[HeapWord(k)];
    AttrsFrame(start + PG_SIZE * k);
  }

  // ----- Heap pages that appear twice -----

  // Heap pages in the table of directory entry 768, which is that of entry 0 as well.
  const TWIN_PAGES: nat := 1024 - LOW_PAGES

  /** Where such a heap page appears once more, between 1 MB and 4 MB. */
  function LowTwin(k: nat): nat {
    0x10_0000 + PG_SIZE * k
  }

  lemma LowTwinEntry(p: seq<nat>, k: nat, o: nat)
    requires DirSetUp(p) && k < TWIN_PAGES && o < PG_SIZE
    ensures var v := LowTwin(k) + o;
            PdeIdx(v) == 0 && PteIdx(v) == 256 + k && v % PG_SIZE == o && Present(Pde(p, v)) &&
            PteAddr(p, v) == 4 * HeapWord(k)
  {
    DirEntries(p);
    DirFrames(0);
  }

  /** The first 768 heap pages are mapped a second time from 1 MB on, as soon as they are used. */
  lemma HeapTwins(p: seq<nat>, used: nat, stale: nat, total: nat, start: nat, k: nat, o: nat)
    requires DirSetUp(p) && HeapMapped(p, used, stale, total, start) && start % PG_SIZE == 0
    requires k < stale && k < TWIN_PAGES && o < PG_SIZE
    ensures Translate(p, LowTwin(k) + o) == Translate(p, HeapPage(k) + o)
    ensures Translate(p, LowTwin(k) + o) == if k < used then Some(start + PG_SIZE * k + o) else None
  {
    HeapTranslates(p, used, stale, total, start, k, o);
    HeapEntry(p, k, o);
    LowTwinEntry(p, k, o);
  }

  /** In the tables of the loader those are the heap pages whose table has a second name. */
  lemma HeapSoleEntry(p: seq<nat>, k: nat)
    requires DirSetUp(p) && k < HEAP_PAGES
    ensures SoleEntry(p, HeapPage(k)) <==> k >= TWIN_PAGES
  {
    HeapIndices(k, 0);
    DirEntries(p);
    var d := PdeIdx(HeapPage(k));
    DirFrames(d);
    DirFrames(0);
    forall i | 0 <= i < 1024 && i != d && Present(DirEntry(p, i))
      ensures Frame(DirEntry(p, i)) == Frame(DirEntry(p, d)) <==> i == 0 && d == 768
    {
      DirFrames(i);
    }
    assert Present(DirEntry(p, 0));
  }
}
