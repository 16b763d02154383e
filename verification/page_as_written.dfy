/** page_table_add of os-elephant with line 168 as it is written: the entry is that of the physical
    address (os-elephant/kernel/memory.c:165-176). */
module AsWritten {
  import opened Options
  import opened Paging
  import opened SetupPage
  import opened PageMemory

  /** Frame `k` of the kernel pool. */
  function PoolFrame(k: nat): nat {
    USED_MEM + PG_SIZE * k
  }

  // ----- The code -----

  datatype Step = Done | AssertFails | Faults

  /** The branch for an address whose directory entry is there. It maps the frame at its own physical
      address, wherever `v` is; without a page table for that address the test of the entry faults. */
  method PageTableAdd(m: array<nat>, v: nat, page: nat) returns (r: Step)
    requires TablesOk(m[..]) && v < ADDRESSES && Present(Pde(m[..], v))
    requires page < ADDRESSES && page % PG_SIZE == 0 && PdeIdx(page) != 1023
    modifies m
    ensures r == Faults <==> !Present(Pde(old(m[..]), page))
    ensures r == AssertFails <==>
            Present(Pde(old(m[..]), page)) && Present(Word(old(m[..]), PteAddr(old(m[..]), page)))
    ensures r == Done ==>
              && PteAddr(old(m[..]), page) / 4 < m.Length && m[..] == WithPte(old(m[..]), page, page)
              && TablesOk(m[..]) && Added(old(m[..]), m[..], page, page)
    ensures r != Done ==> m[..] == old(m[..])
  {
    var p := m[..];
    var pde, pte := PdePtr(v), PtePtr(page);
    WalkOfPdePtr(p, v);
    if Present(Pde(p, page)) { WalkOfPtePtr(p, page); } else { WalkOfAbsentPte(p, page); }
    var e, a := Translate(p, pde), Translate(p, pte);
    assert Present(Word(p, e.value));
    if a == None { return Faults; }
    if Present(Word(p, a.value)) { return AssertFails; }
    AddsAll(p, page, page);
    m[a.value / 4] := page + ATTRS;
    r := Done;
  }

  // ----- Which entry that is, in the tables of the loader -----

  lemma LowEntry(p: seq<nat>, j: nat, w: nat)
    requires DirSetUp(p) && |p| >= 0x20_0000 / 4 && j < 0xc_0000 && w == j * PG_SIZE
    ensures Translate(p, PtePtr(w)) == if j < 1024 then Some(FIRST_TABLE + 4 * j) else None
  {
    SetUpTables(p);
    DirEntries(p);
    assert PdeIdx(w) == j / 1024 < 768 && PteIdx(w) == j % 1024;
    DirFrames(j / 1024);
    if j < 1024 { WalkOfPtePtr(p, w); } else { WalkOfAbsentPte(p, w); }
  }

  /** The entry pte_ptr gives for page `j` below 3 GB is that of heap page `k` exactly when the two are
      twins. */
  lemma WrittenEntryExactly(p: seq<nat>, j: nat, k: nat)
    requires DirSetUp(p) && |p| >= 0x20_0000 / 4 && j < 0xc_0000 && k < HEAP_PAGES
    ensures Translate(p, PtePtr(j * PG_SIZE)) == Some(PteAddr(p, HeapPage(k))) <==> k < TWIN_PAGES && j == 256 + k
  {
    LowEntry(p, j, j * PG_SIZE);
    HeapEntry(p, k, 0);
  }

  /** For the frames of the kernel pool: the first 512 reach the entry of the heap page 256 further on,
      the others none. */
  lemma FrameEntry(p: seq<nat>, k: nat)
    requires DirSetUp(p) && |p| >= 0x20_0000 / 4 && k < 0x8000
    ensures PoolFrame(k) < ADDRESSES && PdeIdx(PoolFrame(k)) < 768
    ensures Present(Pde(p, PoolFrame(k))) <==> k < 512
    ensures k < 512 ==> PteAddr(p, PoolFrame(k)) == 4 * HeapWord(256 + k)
    ensures Translate(p, PtePtr(PoolFrame(k))) == if k < 512 then Some(4 * HeapWord(256 + k)) else None
  {
    SetUpTables(p);
    if k < 512 {
      assert PoolFrame(k) == LowTwin(256 + k) + 0;
      LowTwinEntry(p, 256 + k, 0);
      WalkOfPtePtr(p, PoolFrame(k));
    } else {
      DirEntries(p);
      assert PdeIdx(PoolFrame(k)) == (512 + k) / 1024;
      DirFrames((512 + k) / 1024);
      WalkOfAbsentPte(p, PoolFrame(k));
    }
  }

  /** So the call for a heap page and its frame leaves that page as it is, whatever else is mapped. */
  lemma OwnPageUntouched(p: seq<nat>, k: nat, o: nat, f: nat, w: nat)
    requires DirSetUp(p) && |p| >= 0x20_0000 / 4 && k < 512 && o < PG_SIZE
    requires f == PoolFrame(k) && w == HeapPage(k) + o
    ensures PteAddr(p, f) / 4 < |p| && Translate(WithPte(p, f, f), w) == Translate(p, w)
  {
    NotTheEntry(p, k, o, f, w);
    AddTranslates(p, f, f, w);
  }

  lemma NotTheEntry(p: seq<nat>, k: nat, o: nat, f: nat, w: nat)
    requires DirSetUp(p) && |p| >= 0x20_0000 / 4 && k < 512 && o < PG_SIZE
    requires f == PoolFrame(k) && w == HeapPage(k) + o
    ensures TablesOk(p) && f < ADDRESSES && f % PG_SIZE == 0 && Present(Pde(p, f)) && PdeIdx(f) != 1023 && w < ADDRESSES
    ensures !SameEntry(p, f, w)
  {
    SetUpTables(p);
    FrameEntry(p, k);
    HeapEntry(p, k, o);
  }

  // ----- The pages malloc_page hands out -----

  /** The tables after the first `n` pages were added, when the entries of the first `clear` heap pages
      were free: the frames are mapped 256 pages too far. */
  ghost predicate Shifted(p: seq<nat>, n: nat, clear: nat) {
    && DirSetUp(p) && |p| >= 0x20_0000 / 4 && n <= 512 && 768 <= clear <= HEAP_PAGES && HeapWord(clear) <= |p|
    && (forall j :: HeapWord(256) <= j < HeapWord(256 + n) ==> p[j] == PoolFrame(j - HeapWord(256)) + ATTRS)
    && (forall j :: HeapWord(0) <= j < HeapWord(256) || HeapWord(256 + n) <= j < HeapWord(clear) ==> !Present(p[j]))
  }

  lemma ShiftedNext(p: seq<nat>, n: nat, clear: nat)
    requires Shifted(p, n, clear) && n < 512
    ensures PteAddr(p, PoolFrame(n)) / 4 < |p| && !Present(Word(p, PteAddr(p, PoolFrame(n))))
    ensures Shifted(WithPte(p, PoolFrame(n), PoolFrame(n)), n + 1, clear)
  {
    FrameEntry(p, n);
  }

  lemma ReadyToAdd(p: seq<nat>, n: nat, clear: nat, v: nat, f: nat)
    requires Shifted(p, n, clear) && n < 0x8000 && v == HeapPage(n) && f == PoolFrame(n)
    ensures TablesOk(p) && v < ADDRESSES && Present(Pde(p, v))
    ensures f < ADDRESSES && f % PG_SIZE == 0 && PdeIdx(f) != 1023 && (Present(Pde(p, f)) <==> n < 512)
  {
    SetUpTables(p);
    HeapThere(p, n, v);
    FrameEntry(p, n);
  }

  lemma HeapThere(p: seq<nat>, n: nat, v: nat)
    requires DirSetUp(p) && n < HEAP_PAGES && v == HeapPage(n)
    ensures v < ADDRESSES && Present(Pde(p, v))
  {
    HeapEntry(p, n, 0);
  }

  /** Heap page `n` with frame `n`. */
  method AddPage(m: array<nat>, n: nat, clear: nat) returns (r: Step)
    requires Shifted(m[..], n, clear) && n < 0x8000
    modifies m
    ensures r == if n < 512 then Done else Faults
    ensures Shifted(m[..], if n < 512 then n + 1 else n, clear)
  {
    ReadyToAdd(m[..], n, clear, HeapPage(n), PoolFrame(n));
    if n < 512 { ShiftedNext(m[..], n, clear); }
    r := PageTableAdd(m, HeapPage(n), PoolFrame(n));
  }

  /** The first `cnt` pages malloc_page hands out, one by one. Whatever the number, page 512 faults. */
  method AddPages(m: array<nat>, cnt: nat, clear: nat) returns (done: nat)
    requires Shifted(m[..], 0, clear) && cnt < 0x8000
    modifies m
    ensures done == if cnt <= 512 then cnt else 512
    ensures Shifted(m[..], done, clear)
  {
    done := 0;
    while done < cnt
      invariant done <= cnt && done <= 512 && Shifted(m[..], done, clear)
    {
      var r := AddPage(m, done, clear);
      if r == Faults { return; }
      done := done + 1;
    }
  }

  /** What the heap pages then are: not mapped, or mapped to a frame meant for another page. */
  lemma ShiftedTranslates(p: seq<nat>, n: nat, clear: nat, k: nat, o: nat)
    requires Shifted(p, n, clear) && k < clear && o < PG_SIZE
    ensures Translate(p, HeapPage(k) + o) == if 256 <= k < 256 + n then Some(PoolFrame(k - 256) + o) else None
  {
    HeapEntry(p, k, o);
    assert Word(p, 4 * HeapWord(k)) == p[HeapWord(k)];
    if 256 <= k < 256 + n { AttrsFrame(PoolFrame(k - 256)); }
  }

  /** No page that was handed out is mapped to its own frame. */
  lemma NeverItsFrame(p: seq<nat>, n: nat, clear: nat, k: nat, o: nat)
    requires Shifted(p, n, clear) && k < clear && o < PG_SIZE
    ensures Translate(p, HeapPage(k) + o) != Some(PoolFrame(k) + o)
  {
    ShiftedTranslates(p, n, clear, k, o);
  }
}
