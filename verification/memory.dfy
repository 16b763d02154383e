/** The page allocator of os-elephant, os-elephant/kernel/memory.c. */
module PageMemory {
  import opened Options
  import opened Words
  import opened Bitmaps
  import opened Paging
  import opened SetupPage

  // ----- Pool layout, os-elephant/kernel/memory.c:28-103 -----

  const MEM_BITMAP_BASE: nat := 0xc009_a000
  // The process control block of the main thread.
  const MEM_BITMAP_END: nat := 0xc009_e000
  const BITMAP_BYTES: nat := MEM_BITMAP_END - MEM_BITMAP_BASE
  const USED_MEM: nat := PG_SIZE * 256 + 0x10_0000

  function FreePages(allMem: nat): nat {
    U16(U32(allMem - USED_MEM) / PG_SIZE)
  }

  function KernelPages(allMem: nat): nat {
    FreePages(allMem) / 2
  }

  function UserPages(allMem: nat): nat {
    FreePages(allMem) - KernelPages(allMem)
  }

  function UserStart(allMem: nat): nat {
    U32(USED_MEM + KernelPages(allMem) * PG_SIZE)
  }

  /** The lengths of the bitmaps in bytes. */
  function KernelBytes(allMem: nat): nat {
    KernelPages(allMem) / 8
  }

  function UserBytes(allMem: nat): nat {
    UserPages(allMem) / 8
  }

  /** The 16-bit page count is right from 2 MB up to but excluding 258 MB, and wrong from there
      on. */
  lemma PageCountLimit(allMem: nat)
    requires USED_MEM <= allMem < ADDRESSES
    ensures FreePages(allMem) == (allMem - USED_MEM) / PG_SIZE <==> allMem < 258 * 0x10_0000
  {
  }

  /** The pools lie within the memory if and only if there are 2 MB of it: below that the free memory
      wraps around, and both pools begin behind the memory. */
  lemma MemoryLowerLimit(allMem: nat)
    requires allMem < ADDRESSES
    ensures UserStart(allMem) + PG_SIZE * UserPages(allMem) <= allMem <==> USED_MEM <= allMem
  {
    if allMem < USED_MEM { FreeMemoryWraps(allMem); }
  }

  /** What mem_pool_init then takes for free memory: almost 256 MB. */
  lemma FreeMemoryWraps(allMem: nat)
    requires allMem < USED_MEM
    ensures FreePages(allMem) == 0xfe00 + allMem / PG_SIZE && UserStart(allMem) > allMem
  {
    assert allMem - USED_MEM == allMem + (ADDRESSES - USED_MEM) - ADDRESSES;
    assert U32(allMem - USED_MEM) == allMem + 0xffe0_0000;
    assert (allMem + 0xffe0_0000) / PG_SIZE == allMem / PG_SIZE + 0xffe00;
  }

  /** The pools are disjoint, within the memory and equally large, but for one page, and every bitmap
      index names a frame of its own pool. */
  lemma PoolsFit(allMem: nat)
    requires USED_MEM <= allMem < 258 * 0x10_0000
    ensures USED_MEM + PG_SIZE * KernelPages(allMem) == UserStart(allMem)
    ensures UserStart(allMem) + PG_SIZE * UserPages(allMem) <= allMem
    ensures KernelPages(allMem) <= UserPages(allMem) <= KernelPages(allMem) + 1
    ensures KernelPages(allMem) + UserPages(allMem) == (allMem - USED_MEM) / PG_SIZE
    ensures forall i :: 0 <= i < 8 * KernelBytes(allMem) ==> USED_MEM <= USED_MEM + PG_SIZE * i < UserStart(allMem)
    ensures forall i :: 0 <= i < 8 * UserBytes(allMem) ==>
              UserStart(allMem) <= UserStart(allMem) + PG_SIZE * i <= allMem - PG_SIZE
  {
    PageCountLimit(allMem);
  }

  /** At most 14 whole pages and one partial page are not managed, and that bound is reached. */
  lemma MemoryLost(allMem: nat)
    requires USED_MEM <= allMem < 258 * 0x10_0000
    ensures var managed := PG_SIZE * (8 * KernelBytes(allMem) + 8 * UserBytes(allMem));
            0 <= allMem - USED_MEM - managed < 14 * PG_SIZE + PG_SIZE
  {
    PageCountLimit(allMem);
  }

  lemma MemoryLostTight()
    ensures KernelBytes(USED_MEM + 30 * PG_SIZE + 4095) == 1 && UserBytes(USED_MEM + 30 * PG_SIZE + 4095) == 1
    ensures 30 * PG_SIZE + 4095 - PG_SIZE * 16 == 14 * PG_SIZE + 4095
  {
  }

  /** For every memory size the three bitmaps, laid one behind the other, end below the control
      block of the main thread. */
  lemma BitmapsFit(allMem: nat)
    ensures MEM_BITMAP_BASE + KernelBytes(allMem) + UserBytes(allMem) + KernelBytes(allMem) < MEM_BITMAP_END
    ensures 2 * KernelBytes(allMem) + UserBytes(allMem) <= 3 * PG_SIZE
    ensures 8 * KernelBytes(allMem) < 0x8000
  {
  }

  // ----- The globals -----

  datatype Pool = Pool(bitmap: Bitmap, phyAddrStart: nat, poolSize: nat)
  datatype VirtualAddr = VirtualAddr(bitmap: Bitmap, vaddrStart: nat)

  // enum pool_flags
  const PF_KERNEL: nat := 1
  const PF_USER: nat := 2

  /** The outcome of an allocation: a failed assertion, NULL, or an address. */
  datatype Alloc = Assert | Null | Page(addr: nat)

  /** The result of a scan as palloc uses it. */
  ghost predicate FirstFreeBit(s: seq<bool>, i: nat) {
    i < |s| && !s[i] && forall j :: 0 <= j < i ==> s[j]
  }

  /** What was in memory before: the bit behind the bitmap of the heap, and the number of the first
      heap page whose page table entry is in use. */
  datatype Leftover = Leftover(guard: bool, stale: nat)

  /** What malloc_page does to an allocator of `total` pages of which the first `used` are given
      out: the outcome and the new number of used pages. After a failed assertion the number means
      nothing. */
  function Bump(total: nat, left: Leftover, used: nat, pf: nat, cnt: nat): (Alloc, nat) {
    if cnt == 0 || cnt >= 3840 then (Assert, used)
    else if pf != PF_KERNEL then (Null, used)
    else if used == total then (Assert, used)
    else if used + cnt <= left.stale then (Page(HeapPage(used)), used + cnt)
    else if used + cnt <= total || (used + cnt == total + 1 && !left.guard) then (Assert, used)
    else (Null, used)
  }

  /** The outcomes of a sequence of calls (pool flag, page count), up to the first failed
      assertion, and the pages used after it. */
  function BumpRun(total: nat, left: Leftover, used: nat, calls: seq<(nat, nat)>): (rs: seq<Alloc>)
    ensures |rs| <= |calls|
    decreases |calls|
  {
    if calls == [] then []
    else
      var (r, used') := Bump(total, left, used, calls[0].0, calls[0].1);
      [r] + if r == Assert then [] else BumpRun(total, left, used', calls[1..])
  }

  function UsedAfter(total: nat, left: Leftover, used: nat, calls: seq<(nat, nat)>): nat
    decreases |calls|
  {
    if calls == [] then used
    else UsedAfter(total, left, Bump(total, left, used, calls[0].0, calls[0].1).1, calls[1..])
  }

  /** The first `i` calls, none of which failed an assertion, gave the outcomes `rs`. */
  ghost predicate Served(total: nat, left: Leftover, calls: seq<(nat, nat)>, i: nat, used: nat, rs: seq<Alloc>) {
    && i <= |calls| && Assert !in rs
    && BumpRun(total, left, 0, calls) == rs + BumpRun(total, left, used, calls[i..])
    && UsedAfter(total, left, 0, calls) == UsedAfter(total, left, used, calls[i..])
  }

  lemma ServeNext(total: nat, left: Leftover, calls: seq<(nat, nat)>, i: nat, used: nat, rs: seq<Alloc>)
    requires Served(total, left, calls, i, used, rs) && i < |calls|
    ensures var (r, used') := Bump(total, left, used, calls[i].0, calls[i].1);
            if r == Assert then BumpRun(total, left, 0, calls) == rs + [r]
            else Served(total, left, calls, i + 1, used', rs + [r])
  {
    assert calls[i..][0] == calls[i] && calls[i..][1..] == calls[i + 1..];
    var (r, used') := Bump(total, left, used, calls[i].0, calls[i].1);
    var tail := if r == Assert then [] else BumpRun(total, left, used', calls[i + 1..]);
    assert rs + ([r] + tail) == (rs + [r]) + tail;
  }

  /** The pages given out by the first `n` calls. */
  function Given(calls: seq<(nat, nat)>, rs: seq<Alloc>, n: nat): nat
    requires n <= |rs| <= |calls|
  {
    if n == 0 then 0 else Given(calls, rs, n - 1) + (if rs[n - 1].Page? then calls[n - 1].1 else 0)
  }

  lemma {:induction false} GivenTail(calls: seq<(nat, nat)>, rs: seq<Alloc>, n: nat)
    requires 0 < n <= |rs| <= |calls|
    ensures Given(calls, rs, n) == (if rs[0].Page? then calls[0].1 else 0) + Given(calls[1..], rs[1..], n - 1)
  {
    if n > 1 { GivenTail(calls, rs, n - 1); }
  }

  /** Over any sequence of calls the ranges handed out are consecutive: each begins where those
      before it end, and all lie within the heap. */
  lemma {:induction false} RangesConsecutive(total: nat, left: Leftover, used: nat, calls: seq<(nat, nat)>, j: nat)
    requires used <= left.stale <= total && j < |BumpRun(total, left, used, calls)|
    ensures var rs := BumpRun(total, left, used, calls);
            rs[j].Page? ==> rs[j] == Page(HeapPage(used + Given(calls, rs, j))) &&
                            calls[j].0 == PF_KERNEL && used + Given(calls, rs, j) + calls[j].1 <= left.stale
    decreases |calls|
  {
    var rs := BumpRun(total, left, used, calls);
    if j > 0 {
      var (r, used') := Bump(total, left, used, calls[0].0, calls[0].1);
      RangesConsecutive(total, left, used', calls[1..], j - 1);
      GivenTail(calls, rs, j);
      assert rs[1..] == BumpRun(total, left, used', calls[1..]);
    }
  }

  lemma {:induction false} GivenGrows(calls: seq<(nat, nat)>, rs: seq<Alloc>, i: nat, j: nat)
    requires i < j <= |rs| <= |calls|
    ensures Given(calls, rs, j) >= Given(calls, rs, i) + (if rs[i].Page? then calls[i].1 else 0)
    decreases j - i
  {
    if i + 1 < j { GivenGrows(calls, rs, i, j - 1); }
  }

  /** So no two of them overlap. */
  lemma RangesDisjoint(total: nat, left: Leftover, calls: seq<(nat, nat)>, i: nat, j: nat)
    requires left.stale <= total && i < j < |BumpRun(total, left, 0, calls)|
    ensures var rs := BumpRun(total, left, 0, calls);
            rs[i].Page? && rs[j].Page? ==> rs[i].addr + PG_SIZE * calls[i].1 <= rs[j].addr
  {
    RangesConsecutive(total, left, 0, calls, i);
    RangesConsecutive(total, left, 0, calls, j);
    GivenGrows(calls, BumpRun(total, left, 0, calls), i, j);
  }

  /** Calls for the kernel, each of a number of pages that malloc_page accepts. */
  predicate Modest(calls: seq<(nat, nat)>) {
    forall i :: 0 <= i < |calls| ==> calls[i].0 == PF_KERNEL && 0 < calls[i].1 < 3840
  }

  /** The pages the first `n` calls ask for. */
  function Asked(calls: seq<(nat, nat)>, n: nat): nat
    requires n <= |calls|
  {
    if n == 0 then 0 else Asked(calls, n - 1) + calls[n - 1].1
  }

  lemma {:induction false} AskedTail(calls: seq<(nat, nat)>, n: nat)
    requires 0 < n <= |calls|
    ensures Asked(calls, n) == calls[0].1 + Asked(calls[1..], n - 1)
  {
    if n > 1 { AskedTail(calls, n - 1); }
  }

  /** All calls got their pages, the first at heap page `used`, one behind the other. */
  ghost predicate AllGot(used: nat, calls: seq<(nat, nat)>, rs: seq<Alloc>) {
    |rs| == |calls| && forall i :: 0 <= i < |calls| ==> rs[i] == Page(HeapPage(used + Asked(calls, i)))
  }

  lemma GotOneMore(used: nat, calls: seq<(nat, nat)>, rs: seq<Alloc>, tail: seq<Alloc>)
    requires calls != [] && rs == [Page(HeapPage(used))] + tail && AllGot(used + calls[0].1, calls[1..], tail)
    ensures AllGot(used, calls, rs)
  {
    forall i | 0 <= i < |calls|
      ensures rs[i] == Page(HeapPage(used + Asked(calls, i)))
    {
      if i > 0 {
        AskedTail(calls, i);
        assert rs[i] == tail[i - 1];
      }
    }
  }

  lemma BumpFits(total: nat, left: Leftover, used: nat, cnt: nat)
    requires 0 < cnt < 3840 && used + cnt <= left.stale <= total
    ensures Bump(total, left, used, PF_KERNEL, cnt) == (Page(HeapPage(used)), used + cnt)
  {
  }

  /** The bump allocator makes progress: calls that together ask for no more than the free part of the
      heap all get their pages. */
  lemma {:induction false} AllServed(total: nat, left: Leftover, used: nat, calls: seq<(nat, nat)>)
    requires Modest(calls) && used + Asked(calls, |calls|) <= left.stale <= total
    ensures AllGot(used, calls, BumpRun(total, left, used, calls))
    ensures UsedAfter(total, left, used, calls) == used + Asked(calls, |calls|)
    decreases |calls|
  {
    if calls != [] {
      var cnt := calls[0].1;
      AskedTail(calls, |calls|);
      BumpFits(total, left, used, cnt);
      AllServed(total, left, used + cnt, calls[1..]);
      GotOneMore(used, calls, BumpRun(total, left, used, calls), BumpRun(total, left, used + cnt, calls[1..]));
    }
  }

  lemma AllServedIf(total: nat, left: Leftover, calls: seq<(nat, nat)>)
    requires left.stale <= total
    ensures Modest(calls) && Asked(calls, |calls|) <= left.stale ==> AllGot(0, calls, BumpRun(total, left, 0, calls))
  {
    if Modest(calls) && Asked(calls, |calls|) <= left.stale { AllServed(total, left, 0, calls); }
  }

  /** The bitmap bytes for `k` and `u` bytes of bitmap: `frames` frames and `pages` heap pages are
      given out, from the left, and `guard` is the bit behind the heap bitmap. */
  ghost predicate BitsLaid(m: seq<Byte>, k: nat, u: nat, guard: bool, frames: nat, pages: nat) {
    && |m| == BITMAP_BYTES && k + u + k < BITMAP_BYTES && 8 * k < 0x8000
    && Filled(m, Bitmap(0, k), frames) && Filled(m, Bitmap(k + u, k), pages)
    && Bit(m, k + u, 8 * k) == guard
  }

  /** The page tables with as many heap pages mapped. */
  ghost predicate WordsLaid(p: seq<nat>, k: nat, stale: nat, frames: nat) {
    |p| >= USED_MEM / 4 && DirSetUp(p) && HeapMapped(p, frames, stale, 8 * k, USED_MEM)
  }

  /** The first outcome and those of the other calls. */
  lemma BumpRunHead(total: nat, left: Leftover, used: nat, calls: seq<(nat, nat)>)
    requires calls != [] && Assert !in BumpRun(total, left, used, calls)
    ensures var (r, used') := Bump(total, left, used, calls[0].0, calls[0].1);
            var tail := BumpRun(total, left, used', calls[1..]);
            && r != Assert && used' == used + (if r.Page? then calls[0].1 else 0)
            && (used <= left.stale ==> used' <= left.stale)
            && BumpRun(total, left, used, calls) == [r] + tail && Assert !in tail
            && UsedAfter(total, left, used, calls) == UsedAfter(total, left, used', calls[1..])
  {
    var (r, used') := Bump(total, left, used, calls[0].0, calls[0].1);
    assert Assert in [r] + (if r == Assert then [] else BumpRun(total, left, used', calls[1..])) <==>
           r == Assert || Assert in BumpRun(total, left, used', calls[1..]);
  }

  lemma GivenCons(calls: seq<(nat, nat)>, r: Alloc, tail: seq<Alloc>)
    requires calls != [] && |tail| == |calls| - 1
    ensures Given(calls, [r] + tail, |calls|) ==
            (if r.Page? then calls[0].1 else 0) + Given(calls[1..], tail, |calls| - 1)
  {
    GivenTail(calls, [r] + tail, |calls|);
    assert ([r] + tail)[1..] == tail;
  }

  /** What was given out is what is used. */
  lemma {:induction false} UsedIsGiven(total: nat, left: Leftover, used: nat, calls: seq<(nat, nat)>)
    requires used <= left.stale <= total && Assert !in BumpRun(total, left, used, calls)
    ensures |BumpRun(total, left, used, calls)| == |calls|
    ensures UsedAfter(total, left, used, calls) == used + Given(calls, BumpRun(total, left, used, calls), |calls|)
    decreases |calls|
  {
    if calls != [] {
      BumpRunHead(total, left, used, calls);
      var (r, used') := Bump(total, left, used, calls[0].0, calls[0].1);
      UsedIsGiven(total, left, used', calls[1..]);
      GivenCons(calls, r, BumpRun(total, left, used', calls[1..]));
    }
  }

  /** The pages of the j-th range are in use after all calls. */
  lemma RangeInUse(total: nat, left: Leftover, start: nat, calls: seq<(nat, nat)>, j: nat)
    requires start <= left.stale <= total && Assert !in BumpRun(total, left, start, calls)
    requires j < |BumpRun(total, left, start, calls)|
    ensures var rs := BumpRun(total, left, start, calls);
            rs[j].Page? ==>
              start + Given(calls, rs, j) + calls[j].1 <= UsedAfter(total, left, start, calls)
  {
    UsedIsGiven(total, left, start, calls);
    GivenGrows(calls, BumpRun(total, left, start, calls), j, |calls|);
  }

  lemma {:induction false} UsedBound(total: nat, left: Leftover, used: nat, calls: seq<(nat, nat)>)
    requires used <= left.stale <= total && Assert !in BumpRun(total, left, used, calls)
    ensures UsedAfter(total, left, used, calls) <= left.stale
    decreases |calls|
  {
    if calls != [] {
      BumpRunHead(total, left, used, calls);
      UsedBound(total, left, Bump(total, left, used, calls[0].0, calls[0].1).1, calls[1..]);
    }
  }

  /** A heap page in use is translated to the frame of the same rank in the kernel pool. */
  lemma PageTranslates(p: seq<nat>, k: nat, stale: nat, used: nat, n: nat, o: nat, v: nat, f: nat)
    requires WordsLaid(p, k, stale, used) && n < used && o < PG_SIZE
    requires v == HeapPage(n) + o && f == USED_MEM + PG_SIZE * n + o
    ensures Translate(p, v) == Some(f)
  {
    HeapTranslates(p, used, stale, 8 * k, USED_MEM, n, o);
  }

  /** The j-th of the ranges `rs` is heap pages `n` and on, of the first `used`. */
  ghost predicate RangeAt(calls: seq<(nat, nat)>, rs: seq<Alloc>, j: nat, n: nat, used: nat) {
    j < |rs| <= |calls| && (rs[j].Page? ==> rs[j].addr == HeapPage(n) && n + calls[j].1 <= used)
  }

  lemma RangesAt(total: nat, left: Leftover, calls: seq<(nat, nat)>, j: nat)
    requires left.stale <= total && Assert !in BumpRun(total, left, 0, calls)
    requires j < |BumpRun(total, left, 0, calls)|
    ensures var rs := BumpRun(total, left, 0, calls);
            RangeAt(calls, rs, j, Given(calls, rs, j), UsedAfter(total, left, 0, calls))
  {
    RangeInUse(total, left, 0, calls, j);
    RangesConsecutive(total, left, 0, calls, j);
  }

  /** Every byte of such a range is translated to the frame of the same rank in the kernel pool. */
  lemma RangeTranslates(
    p: seq<nat>, k: nat, stale: nat, used: nat, calls: seq<(nat, nat)>, rs: seq<Alloc>, j: nat, n: nat, m: nat,
    o: nat, v: nat, f: nat)
    requires WordsLaid(p, k, stale, used) && RangeAt(calls, rs, j, n, used) && rs[j].Page?
    requires m < calls[j].1 && o < PG_SIZE
    requires v == rs[j].addr + PG_SIZE * m + o && f == USED_MEM + PG_SIZE * (n + m) + o
    ensures Translate(p, v) == Some(f)
  {
    PageTranslates(p, k, stale, used, n + m, o, v, f);
  }

  /** So it is after any sequence of calls of malloc_page. */
  lemma ServedTranslates(
    p: seq<nat>, k: nat, left: Leftover, calls: seq<(nat, nat)>, rs: seq<Alloc>, j: nat, m: nat, o: nat, v: nat,
    f: nat)
    requires rs == BumpRun(8 * k, left, 0, calls) && Assert !in rs
    requires WordsLaid(p, k, left.stale, UsedAfter(8 * k, left, 0, calls))
    requires j < |rs| && rs[j].Page? && m < calls[j].1 && o < PG_SIZE
    requires v == rs[j].addr + PG_SIZE * m + o && f == USED_MEM + PG_SIZE * (Given(calls, rs, j) + m) + o
    ensures Translate(p, v) == Some(f)
  {
    RangesAt(8 * k, left, calls, j);
    RangeTranslates(p, k, left.stale, UsedAfter(8 * k, left, 0, calls), calls, rs, j, Given(calls, rs, j), m, o, v, f);
  }

  /** The first 768 heap pages in use appear a second time, from 1 MB on. */
  lemma PagesTwice(p: seq<nat>, k: nat, stale: nat, used: nat, n: nat, o: nat)
    requires WordsLaid(p, k, stale, used) && n < stale && n < TWIN_PAGES && o < PG_SIZE
    ensures Translate(p, LowTwin(n) + o) == if n < used then Some(USED_MEM + PG_SIZE * n + o) else None
  {
    HeapTwins(p, used, stale, 8 * k, USED_MEM, n, o);
  }

  // ----- Page tables that are not clear -----

  /** An allocator over clear page tables that fails no assertion gives the same outcomes over the
      tables as they are if and only if it never uses heap page number `stale`. */
  lemma {:induction false} StaleExactly(total: nat, left: Leftover, used: nat, calls: seq<(nat, nat)>)
    requires used <= left.stale <= total && Assert !in BumpRun(total, left.(stale := total), used, calls)
    ensures BumpRun(total, left, used, calls) == BumpRun(total, left.(stale := total), used, calls) <==>
            UsedAfter(total, left.(stale := total), used, calls) <= left.stale
    ensures UsedAfter(total, left.(stale := total), used, calls) > left.stale ==>
              Assert in BumpRun(total, left, used, calls)
    decreases |calls|
  {
    var clear := left.(stale := total);
    if calls != [] {
      BumpRunHead(total, clear, used, calls);
      var (r, used') := Bump(total, clear, used, calls[0].0, calls[0].1);
      UsedGrows(total, clear, used', calls[1..]);
      if used' <= left.stale {
        StaleExactly(total, left, used', calls[1..]);
        SameHead(r, BumpRun(total, left, used', calls[1..]), BumpRun(total, clear, used', calls[1..]));
      } else {
        assert BumpRun(total, left, used, calls)[0] == Assert;
        assert BumpRun(total, clear, used, calls)[0] == r;
      }
    }
  }

  lemma SameHead(r: Alloc, a: seq<Alloc>, b: seq<Alloc>)
    ensures [r] + a == [r] + b <==> a == b
  {
    assert ([r] + a)[1..] == a && ([r] + b)[1..] == b;
  }

  lemma {:induction false} UsedGrows(total: nat, left: Leftover, used: nat, calls: seq<(nat, nat)>)
    ensures used <= UsedAfter(total, left, used, calls)
    decreases |calls|
  {
    if calls != [] { UsedGrows(total, left, Bump(total, left, used, calls[0].0, calls[0].1).1, calls[1..]); }
  }

  /** What vaddr_get does to the bitmap bytes `m` for heap `va`: the run the scan `s` finds is set and
      its address returned; otherwise nothing changes. */
  ghost predicate GotRun(va: VirtualAddr, m: seq<Byte>, m': seq<Byte>, pf: nat, cnt: nat, r: Alloc, s: Scan) {
    var off, n := va.bitmap.off, 8 * va.bitmap.len;
    && off + va.bitmap.len < |m|
    && (if pf == PF_KERNEL then ScanSpec(Bits(m, off, n + 1), n, cnt, s) else s == NotFound)
    && match s
       case Panic => r == Assert && m' == m
       case NotFound => r == Null && m' == m
       case Found(i) => i + cnt <= n + 1 && r == Page(va.vaddrStart + i * PG_SIZE) && m' == SetRun(m, 8 * off + i, cnt)
  }

  class Manager {
    /** Physical memory by words, and the bytes from MEM_BITMAP_BASE on. */
    const words: array<nat>
    const bits: array<Byte>
    var kernelPool: Pool
    var userPool: Pool
    var kernelVaddr: VirtualAddr

    /** The two arrays are different objects. */
    ghost predicate Apart() {
      words as object != bits as object
    }

    constructor (words0: array<nat>, bits0: array<Byte>)
      ensures words == words0 && bits == bits0
    {
      words, bits := words0, bits0;
      kernelPool := Pool(Bitmap(0, 0), 0, 0);
      userPool := Pool(Bitmap(0, 0), 0, 0);
      kernelVaddr := VirtualAddr(Bitmap(0, 0), 0);
    }

    /** mem_pool_init; bitmap addresses are counted from MEM_BITMAP_BASE. */
    method MemPoolInit(allMem: nat)
      requires allMem < ADDRESSES && bits.Length == BITMAP_BYTES
      modifies this, bits
      ensures var k, u := KernelBytes(allMem), UserBytes(allMem);
              && kernelPool == Pool(Bitmap(0, k), USED_MEM, KernelPages(allMem) * PG_SIZE)
              && userPool == Pool(Bitmap(k, u), UserStart(allMem), UserPages(allMem) * PG_SIZE)
              && kernelVaddr == VirtualAddr(Bitmap(k + u, k), K_HEAP_START)
              && forall i :: 0 <= i < 8 * (k + u + k) ==> !Bit(bits[..], 0, i)
    {
      BitmapsFit(allMem);
      var pageTableSize := PG_SIZE * 256;
      var usedMem := pageTableSize + 0x10_0000;
      var freeMem := U32(allMem - usedMem);
      var allFreePages := U16(freeMem / PG_SIZE);
      var kernelFreePages := allFreePages / 2;
      var userFreePages := allFreePages - kernelFreePages;
      var kbm, ubm := kernelFreePages / 8, userFreePages / 8;
      var kpStart := usedMem;
      var upStart := U32(kpStart + kernelFreePages * PG_SIZE);
      kernelPool := Pool(Bitmap(0, kbm), kpStart, kernelFreePages * PG_SIZE);
      userPool := Pool(Bitmap(kbm, ubm), upStart, userFreePages * PG_SIZE);
      BitmapInit(bits, kernelPool.bitmap);
      BitmapInit(bits, userPool.bitmap);
      kernelVaddr := VirtualAddr(Bitmap(kbm + ubm, kbm), K_HEAP_START);
      BitmapInit(bits, kernelVaddr.bitmap);
      forall i | 0 <= i < 8 * (kbm + ubm + kbm)
        ensures !Bit(bits[..], 0, i)
      {
        ZeroByte(i % 8);
      }
    }

    /** palloc; `i` is the index of the frame. bitmap_scan fails its assertion on a full pool, so
        NULL is never returned. */
    method Palloc(pool: Pool) returns (r: Alloc, ghost i: nat)
      requires pool.bitmap.off + pool.bitmap.len < bits.Length
      modifies bits
      ensures r == Assert || r == Page(i * PG_SIZE + pool.phyAddrStart)
      ensures r == Assert <==> forall j :: 0 <= j < 8 * pool.bitmap.len ==> old(Bit(bits[..], pool.bitmap.off, j))
      ensures r.Page? ==> FirstFreeBit(old(Bits(bits[..], pool.bitmap.off, 8 * pool.bitmap.len)), i)
      ensures bits[..] == if r == Assert then old(bits[..]) else SetBit(old(bits[..]), 8 * pool.bitmap.off + i, true)
    {
      ghost var m := bits[..];
      var idx := BitmapScan(bits, pool.bitmap, 1);
      OneBit(m, pool.bitmap, idx);
      r, i := Assert, 0;
      if idx.Found? {
        var ok := BitmapSet(bits, pool.bitmap, idx.i, 1);
        r, i := Page(idx.i * PG_SIZE + pool.phyAddrStart), idx.i;
      }
    }

    // ----- Access by pointer -----

    method Load(v: nat) returns (x: Option<nat>)
      ensures x == match Translate(words[..], v) case None => None case Some(a) => Some(Word(words[..], a))
    {
      var p := words[..];
      var a := Translate(p, v);
      x := if a == None then None else Some(Word(p, a.value));
    }

    method Store(v: nat, x: nat)
      requires Translate(words[..], v).Some? && Translate(words[..], v).value / 4 < words.Length
      modifies words
      ensures words[..] == old(words[..])[Translate(old(words[..]), v).value / 4 := x]
    {
      var a := Translate(words[..], v);
      words[a.value / 4] := x;
    }

    /** memset(page, 0, PG_SIZE) through the window page of directory entry `d`, on words. */
    method ClearTable(page: nat, ghost d: nat, ghost f: nat)
      requires d < 1023 && page == 0xffc0_0000 + PG_SIZE * d && TablesOk(words[..])
      requires DirEntry(words[..], d) == f + ATTRS && f % PG_SIZE == 0 && f != PAGE_DIR_TABLE_POS
      requires f / 4 + 1024 <= words.Length
      modifies words
      ensures Zeroed(old(words[..]), words[..], f, 1024)
    {
      ghost var p := words[..];
      var i := 0;
      while i < 1024
        invariant i <= 1024 && Zeroed(p, words[..], f, i)
      {
        WindowWord(p, words[..], d, f, i);
        Store(page + 4 * i, 0);
        i := i + 1;
      }
    }

    // ----- page_table_add, with the entry of the virtual address -----

    /** The pool is set up and its next frame, should a table be needed, is no table yet. */
    ghost predicate TableFrameOk(v: nat)
      reads this, words, bits
    {
      && Apart() && kernelPool.bitmap.off + kernelPool.bitmap.len < bits.Length
      && (!Present(Pde(words[..], v)) ==>
            forall i: nat :: FirstFreeBit(Bits(bits[..], kernelPool.bitmap.off, 8 * kernelPool.bitmap.len), i) ==>
              UnusedFrame(words[..], i * PG_SIZE + kernelPool.phyAddrStart))
    }

    /** page_table_add; false when an assertion fails. `table` is the frame that became a page
        table. Line 168 of the source passes the physical address to pte_ptr; here it is the
        virtual one, as the comment of the function has it. */
    method PageTableAdd(v: nat, page: nat) returns (ok: bool, ghost table: Option<nat>)
      requires TablesOk(words[..]) && v < ADDRESSES && PdeIdx(v) != 1023 && page % PG_SIZE == 0 && TableFrameOk(v)
      modifies words, bits
      ensures TablesOk(words[..])
      ensures table.Some? <==> ok && !Present(old(Pde(words[..], v)))
      // The directory entry is there: the entry of `v` is written unless it is in use.
      ensures Present(old(Pde(words[..], v))) ==>
                && bits[..] == old(bits[..])
                && old(PteAddr(words[..], v)) / 4 < words.Length
                && ok == !Present(old(Word(words[..], PteAddr(words[..], v))))
                && words[..] == (if ok then WithPte(old(words[..]), v, page) else old(words[..]))
      // One page alone is mapped exactly when no other directory entry names the table.
      ensures ok && table == None ==>
                (AddedOne(old(words[..]), words[..], v, page) <==> old(SoleEntry(words[..], v)))
      // It is not: a free frame becomes its table, unless there is none.
      ensures !Present(old(Pde(words[..], v))) ==> (ok <==> old(HasFree(kernelPool.bitmap)))
      // Translations.
      ensures ok ==> if table == None then Added(old(words[..]), words[..], v, page)
                     else AddedWithTable(old(words[..]), words[..], v, page, table.value)
    {
      ghost var p := words[..];
      table := None;
      var pde, pte := PdePtr(v), PtePtr(v);
      WalkOfPdePtr(p, v);
      var e := Load(pde);
      if Present(e.value) {
        WalkOfPtePtr(p, v);
        AddsAll(p, v, page);
        var x := Load(pte);
        if Present(x.value) { return false, None; }
        AddsOneExactly(p, v, page);
        Store(pte, page + ATTRS);
        ok := true;
      } else {
        ok, table := AddTable(v, page);
      }
    }

    ghost predicate HasFree(b: Bitmap)
      requires b.off + b.len < bits.Length
      reads bits
    {
      exists i :: 0 <= i < 8 * b.len && !Bit(bits[..], b.off, i)
    }

    /** The branch of page_table_add that installs a table. */
    method AddTable(v: nat, page: nat) returns (ok: bool, ghost table: Option<nat>)
      requires TablesOk(words[..]) && v < ADDRESSES && PdeIdx(v) != 1023 && page % PG_SIZE == 0 && TableFrameOk(v)
      requires !Present(Pde(words[..], v))
      modifies words, bits
      ensures TablesOk(words[..])
      ensures table.Some? <==> ok
      ensures ok <==> old(HasFree(kernelPool.bitmap))
      ensures ok ==> AddedWithTable(old(words[..]), words[..], v, page, table.value)
    {
      ghost var p := words[..];
      ghost var i;
      var r: Alloc;
      r, i := Palloc(kernelPool);
      if r == Assert { return false, None; }
      assert words[..] == p;
      assert UnusedFrame(p, r.addr);
      FillTable(v, page, r.addr);
      ok, table := true, Some(r.addr);
    }

    /** With the frame `f` for it. */
    method FillTable(v: nat, page: nat, f: nat)
      requires TablesOk(words[..]) && v < ADDRESSES && PdeIdx(v) != 1023 && page % PG_SIZE == 0
      requires !Present(Pde(words[..], v)) && UnusedFrame(words[..], f)
      modifies words
      ensures TablesOk(words[..]) && AddedWithTable(old(words[..]), words[..], v, page, f)
    {
      ghost var p := words[..];
      Install(v, f);
      AddsFresh(p, words[..], v, f, page);
      var pte := PtePtr(v);
      var x := Load(pte);
      assert !Present(x.value);
      Store(pte, page + ATTRS);
    }

    /** Writes the directory entry and zeroes the table through the window. */
    method Install(v: nat, f: nat)
      requires TablesOk(words[..]) && v < ADDRESSES && PdeIdx(v) != 1023 && UnusedFrame(words[..], f)
      requires !Present(Pde(words[..], v))
      modifies words
      ensures Installed(old(words[..]), words[..], PdeIdx(v), f)
    {
      ghost var p, d := words[..], PdeIdx(v);
      var pde, pte := PdePtr(v), PtePtr(v);
      InstallPlaces(p, v, d, f);
      Store(pde, f + ATTRS);
      assert words[..] == WithTable(p, d, f);
      ClearTable(Frame(pte), d, f);
    }

    // ----- malloc_page -----

    /** vaddr_get; `s` is the result of the scan. */
    method VaddrGet(pf: nat, cnt: nat) returns (r: Alloc, ghost s: Scan)
      requires kernelVaddr.bitmap.off + kernelVaddr.bitmap.len < bits.Length && cnt > 0
      modifies bits
      ensures GotRun(kernelVaddr, old(bits[..]), bits[..], pf, cnt, r, s)
    {
      if pf != PF_KERNEL { return Null, NotFound; }
      var idx := BitmapScan(bits, kernelVaddr.bitmap, cnt);
      s := idx;
      match idx
      case Panic => return Assert, s;
      case NotFound => return Null, s;
      case Found(i) =>
        assert ClearRun(Bits(bits[..], kernelVaddr.bitmap.off, 8 * kernelVaddr.bitmap.len + 1), i, cnt);
        SetAll(kernelVaddr.bitmap, i, cnt);
        r := Page(kernelVaddr.vaddrStart + i * PG_SIZE);
    }

    /** The loop of vaddr_get. */
    method SetAll(b: Bitmap, i: nat, cnt: nat)
      requires b.off + b.len < bits.Length && i + cnt <= 8 * b.len + 1
      modifies bits
      ensures bits[..] == SetRun(old(bits[..]), 8 * b.off + i, cnt)
    {
      ghost var m := bits[..];
      var c := 0;
      while c < cnt
        invariant c <= cnt && bits[..] == SetRun(m, 8 * b.off + i, c)
      {
        SetOne(b, i, c, m);
        c := c + 1;
      }
    }

    /** The body of that loop. */
    method SetOne(b: Bitmap, i: nat, c: nat, ghost m: seq<Byte>)
      requires b.off + b.len < |m| && i + c <= 8 * b.len && bits.Length == |m|
      requires bits[..] == SetRun(m, 8 * b.off + i, c)
      modifies bits
      ensures bits[..] == SetRun(m, 8 * b.off + i, c + 1)
    {
      RunNext(m, b, i, c);
      var ok := BitmapSet(bits, b, i + c, 1);
    }

    /** The kernel pool and the heap as mem_init sets them up, */
    ghost predicate Globals(k: nat, u: nat)
      reads this
    {
      && Apart() && kernelPool.bitmap == Bitmap(0, k) && kernelPool.phyAddrStart == USED_MEM
      && kernelVaddr == VirtualAddr(Bitmap(k + u, k), K_HEAP_START)
    }

    /** with what was given out since. */
    ghost predicate Laid(k: nat, u: nat, left: Leftover, frames: nat, pages: nat)
      reads this, words, bits
    {
      && Globals(k, u) && BitsLaid(bits[..], k, u, left.guard, frames, pages)
      && WordsLaid(words[..], k, left.stale, frames)
    }

    /** page_table_add for the next heap page; its assertion fails on the first entry in use. */
    method AddHeapPage(ghost k: nat, ghost stale: nat, ghost n: nat, v: nat, f: nat) returns (ok: bool)
      requires Apart() && kernelPool.bitmap.off + kernelPool.bitmap.len < bits.Length
      requires WordsLaid(words[..], k, stale, n) && n < 8 * k
      requires v == HeapPage(n) && f == USED_MEM + PG_SIZE * n
      modifies words, bits
      ensures ok <==> n < stale
      ensures bits[..] == old(bits[..]) && (ok ==> WordsLaid(words[..], k, stale, n + 1))
    {
      ghost var p := words[..];
      HeapReady(p, k, stale, n, v);
      ok := AddMapped(v, f);
      HeapNext(p, words[..], k, stale, n, v, f, ok);
    }

    /** page_table_add for an address whose page table is there. */
    method AddMapped(v: nat, f: nat) returns (ok: bool)
      requires Apart() && kernelPool.bitmap.off + kernelPool.bitmap.len < bits.Length
      requires TablesOk(words[..]) && v < ADDRESSES && PdeIdx(v) != 1023 && f % PG_SIZE == 0
      requires Present(Pde(words[..], v))
      modifies words, bits
      ensures ok == !Present(old(Word(words[..], PteAddr(words[..], v)))) && bits[..] == old(bits[..])
      ensures old(PteAddr(words[..], v)) / 4 < words.Length
      ensures words[..] == if ok then WithPte(old(words[..]), v, f) else old(words[..])
    {
      ghost var t;
      ok, t := PageTableAdd(v, f);
    }

    /** One turn of the loop of malloc_page: a frame for heap page `n`, which is the next. */
    method MapNext(ghost k: nat, ghost u: nat, ghost left: Leftover, ghost n: nat, v: nat, ghost pages: nat)
      returns (ok: bool)
      requires Laid(k, u, left, n, pages) && (n < 8 * k ==> v == HeapPage(n))
      modifies words, bits
      ensures ok <==> n < left.stale
      ensures ok ==> Laid(k, u, left, n + 1, pages)
    {
      ghost var m, p := bits[..], words[..];
      ghost var i;
      var f: Alloc;
      f, i := Palloc(kernelPool);
      NextFree(m, Bitmap(0, k), n, i, f == Assert);
      if f == Assert { return false; }
      assert words[..] == p;
      FrameTaken(m, k, u, left.guard, n, pages);
      ok := AddHeapPage(k, left.stale, n, v, f.addr);
    }

    /** vaddr_get for a heap that is filled from the left. */
    method NextRun(ghost k: nat, ghost u: nat, ghost guard: bool, ghost used: nat, pf: nat, cnt: nat)
      returns (r: Alloc)
      requires Globals(k, u) && BitsLaid(bits[..], k, u, guard, used, used) && cnt > 0
      modifies bits
      ensures words[..] == old(words[..])
      ensures r == if pf != PF_KERNEL then Null
                   else if used == 8 * k then Assert
                   else if used + cnt <= 8 * k || (used + cnt == 8 * k + 1 && !guard) then Page(HeapPage(used))
                   else Null
      ensures r == Null ==> bits[..] == old(bits[..])
      ensures r.Page? ==> Taken(old(bits[..]), bits[..], k, k + u, used, cnt)
    {
      ghost var m := bits[..];
      ghost var s;
      r, s := VaddrGet(pf, cnt);
      RunFound(kernelVaddr, m, bits[..], k, u, guard, used, pf, cnt, r, s);
    }

    /** malloc_page. A call for the kernel gets the next pages of the heap if and only if their entries
        are free. One for more pages than the heap has left gets NULL, but an assertion
        fails when there is none left, when the bit behind the heap bitmap was taken for one of them,
        and when the entry of one is in use. */
    method MallocPage(ghost k: nat, ghost u: nat, ghost left: Leftover, ghost used: nat, pf: nat, cnt: nat)
      returns (r: Alloc)
      requires Laid(k, u, left, used, used)
      modifies words, bits
      ensures !(0 < cnt < 3840) ==> r == Assert
      ensures 0 < cnt < 3840 && pf != PF_KERNEL ==> r == Null
      ensures 0 < cnt < 3840 && pf == PF_KERNEL ==>
                && (r == Page(HeapPage(used)) <==> used + cnt <= left.stale)
                && (r == Null <==> used < 8 * k && used + cnt > 8 * k + (if left.guard then 0 else 1))
                && (r == Page(HeapPage(used)) || r == Null || r == Assert)
      ensures r == Null ==> Laid(k, u, left, used, used)
      ensures r.Page? ==> Laid(k, u, left, used + cnt, used + cnt)
    {
      if !(0 < cnt < 3840) { return Assert; }
      ghost var m := bits[..];
      r := NextRun(k, u, left.guard, used, pf, cnt);
      if r == Assert || r == Null { return; }
      r := MapFound(k, u, left, used, cnt, r.addr, m);
    }

    /** malloc_page behind vaddr_get, which has set the bits of the run in `m`. */
    method MapFound(
      ghost k: nat, ghost u: nat, ghost left: Leftover, ghost used: nat, cnt: nat, start: nat, ghost m: seq<Byte>)
      returns (r: Alloc)
      requires BitsLaid(m, k, u, left.guard, used, used) && Taken(m, bits[..], k, k + u, used, cnt)
      requires Globals(k, u) && WordsLaid(words[..], k, left.stale, used) && start == HeapPage(used)
      modifies words, bits
      ensures r == if used + cnt <= left.stale then Page(start) else Assert
      ensures r != Assert ==> Laid(k, u, left, used + cnt, used + cnt)
    {
      ghost var guard := left.guard || used + cnt > 8 * k;
      ghost var pages := if used + cnt <= 8 * k then used + cnt else 8 * k;
      HeapTaken(m, bits[..], k, u, left.guard, used, cnt, guard, pages);
      r := MapRun(k, u, left.(guard := guard), used, start, cnt, pages);
    }

    /** The loop of malloc_page. */
    method MapRun(
      ghost k: nat, ghost u: nat, ghost left: Leftover, ghost used: nat, start: nat, cnt: nat, ghost pages: nat)
      returns (r: Alloc)
      requires Laid(k, u, left, used, pages) && start == HeapPage(used) && used + cnt <= 8 * k + 1
      modifies words, bits
      ensures r == if used + cnt <= left.stale then Page(start) else Assert
      ensures r != Assert ==> Laid(k, u, left, used + cnt, pages)
    {
      var v, c := start, cnt;
      ghost var n := used;
      while c > 0
        invariant 0 <= c && c + n == used + cnt && n <= left.stale && v == HeapPage(n)
        invariant Laid(k, u, left, n, pages)
      {
        var ok := MapNext(k, u, left, n, v, pages);
        if !ok { return Assert; }
        v := v + PG_SIZE;
        c := c - 1;
        n := n + 1;
      }
      r := Page(start);
    }

    // ----- Whole runs -----

    /** setup_page in the loader and mem_init in the kernel. Nothing clears the page tables of the
        heap, so the first entry that happens to be in use counts. */
    method Boot(allMem: nat) returns (ghost left: Leftover)
      requires allMem < ADDRESSES && Apart() && bits.Length == BITMAP_BYTES && words.Length >= USED_MEM / 4
      modifies this, words, bits
      ensures Laid(KernelBytes(allMem), UserBytes(allMem), left, 0, 0)
      ensures left.stale == FirstInUse(old(words[..]), 0, 8 * KernelBytes(allMem))
    {
      ghost var p := words[..];
      Setup(words);
      MemPoolInit(allMem);
      BitmapsFit(allMem);
      var k, u := KernelBytes(allMem), UserBytes(allMem);
      NothingGivenOut(bits[..], k, u);
      NoneMapped(p, words[..], 8 * k);
      left := Leftover(Bit(bits[..], k + u, 8 * k), FirstInUse(p, 0, 8 * k));
    }

    /** Any sequence of calls of malloc_page, up to the first failed assertion. */
    method Serve(ghost k: nat, ghost u: nat, ghost left: Leftover, calls: seq<(nat, nat)>) returns (rs: seq<Alloc>)
      requires Laid(k, u, left, 0, 0)
      modifies words, bits
      ensures rs == BumpRun(8 * k, left, 0, calls)
      // Whatever fits into the free part of the heap is served.
      ensures Modest(calls) && Asked(calls, |calls|) <= left.stale ==> AllGot(0, calls, rs)
      ensures Assert !in rs ==> Laid(k, u, left, UsedAfter(8 * k, left, 0, calls), UsedAfter(8 * k, left, 0, calls))
    {
      AllServedIf(8 * k, left, calls);
      rs := [];
      var i := 0;
      ghost var used := 0;
      while i < |calls|
        invariant Served(8 * k, left, calls, i, used, rs) && Laid(k, u, left, used, used)
      {
        ServeNext(8 * k, left, calls, i, used, rs);
        var r := MallocPage(k, u, left, used, calls[i].0, calls[i].1);
        rs := rs + [r];
        if r == Assert { return; }
        used := Bump(8 * k, left, used, calls[i].0, calls[i].1).1;
        i := i + 1;
      }
      assert calls[i..] == [];
    }
  }

  /** One more bit of a run within a bitmap and the bit behind it. */
  lemma RunNext(m: seq<Byte>, b: Bitmap, i: nat, c: nat)
    requires b.off + b.len < |m| && i + c <= 8 * b.len
    ensures b.off + (i + c) / 8 < |m| && (c > 0 ==> (8 * b.off + i + c - 1) / 8 < |m|)
    ensures (8 * b.off + (i + c)) / 8 < |m| && (8 * b.off + i + (c + 1) - 1) / 8 < |m|
    ensures SetRun(m, 8 * b.off + i, c + 1) == SetBit(SetRun(m, 8 * b.off + i, c), 8 * b.off + (i + c), true)
  {
    assert 8 * b.off + (i + c) == 8 * b.off + i + (c + 1) - 1;
  }

  /** A scan for one bit finds the lowest clear one or fails the assertion. */
  lemma OneBit(m: seq<Byte>, b: Bitmap, r: Scan)
    requires b.off + b.len < |m| && ScanSpec(Bits(m, b.off, 8 * b.len + 1), 8 * b.len, 1, r)
    ensures !r.NotFound?
    ensures r.Panic? <==> forall j :: 0 <= j < 8 * b.len ==> Bit(m, b.off, j)
    ensures r.Found? ==> r.i < 8 * b.len && FirstFreeBit(Bits(m, b.off, 8 * b.len), r.i)
  {
    var s, t := Bits(m, b.off, 8 * b.len), Bits(m, b.off, 8 * b.len + 1);
    assert forall j :: 0 <= j < |s| ==> s[j] == t[j];
    if r.Found? {
      forall j | 0 <= j < r.i
        ensures s[j]
      {
        assert !ClearRun(t, j, 1);
      }
      assert !s[r.i] && s[r.i] == Bit(m, b.off, r.i);
    }
  }

  /** Where the directory entry of a new table and its window page are. */
  lemma InstallPlaces(p: seq<nat>, v: nat, d: nat, f: nat)
    requires TablesOk(p) && v < ADDRESSES && d == PdeIdx(v) && d != 1023 && UnusedFrame(p, f)
    ensures PAGE_DIR_TABLE_POS / 4 + d < |p| && d < 1023
    ensures Translate(p, PdePtr(v)).Some? && Translate(p, PdePtr(v)).value / 4 == PAGE_DIR_TABLE_POS / 4 + d
    ensures Frame(PtePtr(v)) == 0xffc0_0000 + PG_SIZE * d
    ensures TablesOk(WithTable(p, d, f)) && DirEntry(WithTable(p, d, f), d) == f + ATTRS
    ensures f % PG_SIZE == 0 && f != PAGE_DIR_TABLE_POS && f / 4 + 1024 <= |p|
  {
    WalkOfPdePtr(p, v);
    PtePtrValue(v);
    AddressParts(v);
    assert (PAGE_DIR_TABLE_POS + 4 * d) / 4 == PAGE_DIR_TABLE_POS / 4 + d;
    WithTableDir(p, d, f);
  }

  /** While the new table is zeroed, its window page goes on mapping it. */
  lemma WindowWord(p: seq<nat>, q: seq<nat>, d: nat, f: nat, i: nat)
    requires TablesOk(p) && d < 1023 && DirEntry(p, d) == f + ATTRS && f % PG_SIZE == 0 && f != PAGE_DIR_TABLE_POS
    requires i < 1024 && f / 4 + 1024 <= |p| && Zeroed(p, q, f, i)
    ensures Translate(q, 0xffc0_0000 + PG_SIZE * d + 4 * i) == Some(f + 4 * i)
    ensures (f + 4 * i) / 4 == f / 4 + i
  {
    ZeroedDir(p, q, f, i);
    AttrsFrame(f);
    var v := 0xffc0_0000 + PG_SIZE * d + 4 * i;
    assert v / PG_SIZE == 0xffc00 + d && v % PG_SIZE == 4 * i;
    AddressParts(v);
    assert PteAddr(q, v) == PAGE_DIR_TABLE_POS + 4 * d;
  }

  // ----- One more frame, one more page -----

  /** The lowest clear bit of a bitmap that is filled from the left. */
  lemma NextFree(m: seq<Byte>, b: Bitmap, n: nat, i: nat, full: bool)
    requires Filled(m, b, n)
    requires full <==> forall j :: 0 <= j < 8 * b.len ==> Bit(m, b.off, j)
    requires !full ==> FirstFreeBit(Bits(m, b.off, 8 * b.len), i)
    ensures full <==> n == 8 * b.len
    ensures !full ==> i == n
  {
    if n < 8 * b.len { assert !Bit(m, b.off, n); }
    if !full {
      var s := Bits(m, b.off, 8 * b.len);
      assert s[i] == (i < n);
      if n < |s| { assert !s[n]; }
    }
  }

  lemma FillNext(m: seq<Byte>, b: Bitmap, n: nat)
    requires Filled(m, b, n) && n < 8 * b.len
    ensures Filled(SetBit(m, 8 * b.off + n, true), b, n + 1)
  {
    var m' := SetBit(m, 8 * b.off + n, true);
    forall i {:trigger Bit(m', b.off, i)} | 0 <= i < 8 * b.len
      ensures Bit(m', b.off, i) == (i < n + 1)
    {
      SetBitBits(m, 8 * b.off + n, true, b.off, i);
    }
  }

  /** A bit outside the window of a bitmap. */
  lemma OtherWindow(m: seq<Byte>, off: nat, n: nat, b: Bitmap, pages: nat)
    requires Filled(m, b, pages) && off + n / 8 < b.off
    ensures Filled(SetBit(m, 8 * off + n, true), b, pages)
  {
    var m' := SetBit(m, 8 * off + n, true);
    forall i {:trigger Bit(m', b.off, i)} | 0 <= i < 8 * b.len
      ensures Bit(m', b.off, i) == (i < pages)
    {
      SetBitBits(m, 8 * off + n, true, b.off, i);
    }
  }

  /** What vaddr_get finds. */
  lemma HeapScan(m: seq<Byte>, k: nat, u: nat, guard: bool, used: nat, cnt: nat, s: Scan)
    requires BitsLaid(m, k, u, guard, used, used) && cnt > 0
    requires ScanSpec(Bits(m, k + u, 8 * k + 1), 8 * k, cnt, s)
    ensures s == if used == 8 * k then Panic
                 else if used + cnt <= 8 * k || (used + cnt == 8 * k + 1 && !guard) then Found(used)
                 else NotFound
  {
    FilledScan(m, Bitmap(k + u, k), used, cnt, s);
  }

  /** So vaddr_get comes to this. */
  lemma RunFound(
    va: VirtualAddr, m: seq<Byte>, m': seq<Byte>, k: nat, u: nat, guard: bool, used: nat, pf: nat, cnt: nat, r: Alloc,
    s: Scan)
    requires BitsLaid(m, k, u, guard, used, used) && cnt > 0 && va == VirtualAddr(Bitmap(k + u, k), K_HEAP_START)
    requires GotRun(va, m, m', pf, cnt, r, s)
    ensures r == if pf != PF_KERNEL then Null
                 else if used == 8 * k then Assert
                 else if used + cnt <= 8 * k || (used + cnt == 8 * k + 1 && !guard) then Page(HeapPage(used))
                 else Null
    ensures r == Null ==> m' == m
    ensures r.Page? ==> Taken(m, m', k, k + u, used, cnt)
  {
    if pf == PF_KERNEL { HeapScan(m, k, u, guard, used, cnt, s); }
  }

  /** The bitmaps after palloc. */
  lemma FrameTaken(m: seq<Byte>, k: nat, u: nat, guard: bool, n: nat, pages: nat)
    requires BitsLaid(m, k, u, guard, n, pages) && n < 8 * k
    ensures BitsLaid(SetBit(m, n, true), k, u, guard, n + 1, pages)
  {
    FillNext(m, Bitmap(0, k), n);
    OtherWindow(m, 0, n, Bitmap(k + u, k), pages);
    SetBitBits(m, n, true, k + u, 8 * k);
  }

  /** The memory after `cnt` bits of the heap bitmap at `off` were set behind the first `used`. */
  ghost predicate Taken(m: seq<Byte>, m': seq<Byte>, k: nat, off: nat, used: nat, cnt: nat) {
    off + k < |m| == |m'| && used <= 8 * k && used + cnt <= 8 * k + 1 && m' == SetRun(m, 8 * off + used, cnt)
  }

  lemma GuardTaken(m: seq<Byte>, m': seq<Byte>, k: nat, u: nat, guard: bool, used: nat, cnt: nat, guard': bool)
    requires BitsLaid(m, k, u, guard, used, used) && Taken(m, m', k, k + u, used, cnt)
    requires guard' == (guard || used + cnt > 8 * k)
    ensures Bit(m', k + u, 8 * k) == guard'
  {
    SetRunBits(m, 8 * (k + u) + used, cnt, k + u, 8 * k);
  }

  lemma PoolUntouched(m: seq<Byte>, m': seq<Byte>, k: nat, u: nat, guard: bool, used: nat, cnt: nat)
    requires BitsLaid(m, k, u, guard, used, used) && Taken(m, m', k, k + u, used, cnt)
    ensures Filled(m', Bitmap(0, k), used)
  {
    forall i {:trigger Bit(m', 0, i)} | 0 <= i < 8 * k
      ensures Bit(m', 0, i) == (i < used)
    {
      SetRunBits(m, 8 * (k + u) + used, cnt, 0, i);
    }
  }

  lemma HeapFilled(m: seq<Byte>, m': seq<Byte>, k: nat, u: nat, guard: bool, used: nat, cnt: nat, pages: nat)
    requires BitsLaid(m, k, u, guard, used, used) && Taken(m, m', k, k + u, used, cnt)
    requires pages == if used + cnt <= 8 * k then used + cnt else 8 * k
    ensures Filled(m', Bitmap(k + u, k), pages)
  {
    forall i {:trigger Bit(m', k + u, i)} | 0 <= i < 8 * k
      ensures Bit(m', k + u, i) == (i < used + cnt)
    {
      SetRunBits(m, 8 * (k + u) + used, cnt, k + u, i);
    }
  }

  /** The bitmaps after vaddr_get. A run that ends behind the heap bitmap sets the guard. */
  lemma HeapTaken(
    m: seq<Byte>, m': seq<Byte>, k: nat, u: nat, guard: bool, used: nat, cnt: nat, guard': bool, pages: nat)
    requires BitsLaid(m, k, u, guard, used, used) && Taken(m, m', k, k + u, used, cnt)
    requires guard' == (guard || used + cnt > 8 * k)
    requires pages == if used + cnt <= 8 * k then used + cnt else 8 * k
    ensures BitsLaid(m', k, u, guard', used, pages)
  {
    PoolUntouched(m, m', k, u, guard, used, cnt);
    HeapFilled(m, m', k, u, guard, used, cnt, pages);
    GuardTaken(m, m', k, u, guard, used, cnt, guard');
    LaidBy(m', k, u, guard', used, pages);
  }

  lemma LaidBy(m: seq<Byte>, k: nat, u: nat, guard: bool, frames: nat, pages: nat)
    requires |m| == BITMAP_BYTES && k + u + k < BITMAP_BYTES && 8 * k < 0x8000
    requires Filled(m, Bitmap(0, k), frames) && Filled(m, Bitmap(k + u, k), pages) && Bit(m, k + u, 8 * k) == guard
    ensures BitsLaid(m, k, u, guard, frames, pages)
  {
  }

  /** The next heap page has its page table. */
  lemma HeapReady(p: seq<nat>, k: nat, stale: nat, n: nat, v: nat)
    requires WordsLaid(p, k, stale, n) && n < 8 * k && v == HeapPage(n)
    ensures TablesOk(p) && v < ADDRESSES && PdeIdx(v) != 1023 && Present(Pde(p, v))
  {
    SetUpTables(p);
    HeapEntry(p, n, 0);
  }

  /** Its entry is free unless it is the stale one, and setting it maps the page. */
  lemma HeapNext(p: seq<nat>, q: seq<nat>, k: nat, stale: nat, n: nat, v: nat, f: nat, ok: bool)
    requires WordsLaid(p, k, stale, n) && n < 8 * k && v == HeapPage(n) && f == USED_MEM + PG_SIZE * n
    requires PteAddr(p, v) / 4 < |p| && ok == !Present(Word(p, PteAddr(p, v)))
    requires q == if ok then WithPte(p, v, f) else p
    ensures (ok <==> n < stale) && (ok ==> WordsLaid(q, k, stale, n + 1))
  {
    HeapEntry(p, n, 0);
  }

  // ----- The initial state -----

  lemma NothingGivenOut(m: seq<Byte>, k: nat, u: nat)
    requires |m| == BITMAP_BYTES && k + u + k < BITMAP_BYTES && 8 * k < 0x8000
    requires forall i :: 0 <= i < 8 * (k + u + k) ==> !Bit(m, 0, i)
    ensures BitsLaid(m, k, u, Bit(m, k + u, 8 * k), 0, 0)
  {
    forall i {:trigger Bit(m, k + u, i)} | 0 <= i < 8 * k
      ensures !Bit(m, k + u, i)
    {
      assert !Bit(m, 0, 8 * (k + u) + i);
      assert (8 * (k + u) + i) / 8 == k + u + i / 8 && (8 * (k + u) + i) % 8 == i % 8;
    }
  }


  /** The number of the first heap page, from `k` on and before `n`, whose entry is in use; `n` if
      there is none. */
  function FirstInUse(p: seq<nat>, k: nat, n: nat): (r: nat)
    requires k <= n && HeapWord(n) <= |p|
    ensures k <= r <= n && (r < n ==> Present(p[HeapWord(r)]))
    ensures forall j :: HeapWord(k) <= j < HeapWord(r) ==> !Present(p[j])
    decreases n - k
  {
    if k == n || Present(p[HeapWord(k)]) then k else FirstInUse(p, k + 1, n)
  }

  /** setup_page leaves the entries of the heap as they are. */
  lemma NoneMapped(p: seq<nat>, q: seq<nat>, n: nat)
    requires |q| == |p| && n <= HEAP_PAGES && HeapWord(n) <= |p|
    requires forall k :: 0 <= k < |p| && !Written(k) ==> q[k] == p[k]
    ensures HeapMapped(q, 0, FirstInUse(p, 0, n), n, USED_MEM)
  {
  }
}
